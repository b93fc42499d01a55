// Machine-config patches: the deep merge, the two patch loops of applyConfig, and
// what running a whole patch list does to a configuration.
module Patches {
  import opened Options

  // A parsed YAML value. Lists, numbers and null are leaves: the merge never looks inside them.
  datatype Value = Leaf(text: string) | Doc(fields: Fields)
  type Fields = map<string, Value>

  function At(m: Fields, k: string): Option<Value>
  {
    if k in m then Some(m[k]) else None
  }

  // The map a value contributes when a map is merged onto it.
  function Base(c: Option<Value>): Fields
  {
    if c.Some? && c.value.Doc? then c.value.fields else map[]
  }

  // What one key of a patch leaves behind: two maps merge, anything else is replaced.
  function Overlay(c: Option<Value>, v: Value): Value
    decreases v, 1
  {
    if c.Some? && c.value.Doc? && v.Doc? then Doc(Merge(c.value.fields, v.fields)) else v
  }

  function Merge(base: Fields, patch: Fields): Fields
    decreases Doc(patch), 0
  {
    map k | k in base.Keys + patch.Keys :: if k !in patch then base[k] else Overlay(At(base, k), patch[k])
  }

  function Fold(base: Fields, patches: seq<Fields>): Fields
    decreases |patches|
  {
    if patches == [] then base else Fold(Merge(base, patches[0]), patches[1..])
  }

  // Keys are visited in an arbitrary order, as Go visits the keys of a map.
  method MergePatches(base: Fields, patch: Fields) returns (result: Fields)
    ensures result == Merge(base, patch)
    decreases Doc(patch)
  {
    result := map[];
    var toCopy := base.Keys;
    while toCopy != {}
      invariant toCopy <= base.Keys
      invariant result == map k | k in base.Keys - toCopy :: base[k]
    {
      var k :| k in toCopy;
      result := result[k := base[k]];
      toCopy := toCopy - {k};
    }
    assert result == base;
    var todo := patch.Keys;
    while todo != {}
      invariant todo <= patch.Keys
      invariant result.Keys == base.Keys + (patch.Keys - todo)
      invariant forall k :: k in result ==>
                              result[k] == if k in patch.Keys - todo then Overlay(At(base, k), patch[k]) else base[k]
    {
      var k :| k in todo;
      var v := patch[k];
      if k in result && result[k].Doc? && v.Doc? {
        var merged := MergePatches(result[k].fields, v.fields);
        result := result[k := Doc(merged)];
      } else {
        result := result[k := v];
      }
      todo := todo - {k};
    }
  }

  // ----- What a merge means, leaf by leaf -----

  // The leaf reached by following a path of keys.
  function Lookup(m: Fields, path: seq<string>): Option<string>
    decreases |path|
  {
    if path == [] || path[0] !in m then None
    else match m[path[0]]
      case Leaf(text) => if |path| == 1 then Some(text) else None
      case Doc(fields) => Lookup(fields, path[1..])
  }

  // The patch decides a path when it replaces a value somewhere along it, or defines it first.
  predicate Shadows(base: Fields, patch: Fields, path: seq<string>)
    decreases |path|
  {
    && path != []
    && path[0] in patch
    && (path[0] in base && base[path[0]].Doc? && patch[path[0]].Doc? ==>
          Shadows(base[path[0]].fields, patch[path[0]].fields, path[1..]))
  }

  lemma {:induction false} MergeLookup(base: Fields, patch: Fields, path: seq<string>)
    ensures Lookup(Merge(base, patch), path) ==
            if Shadows(base, patch, path) then Lookup(patch, path) else Lookup(base, path)
    decreases |path|
  {
    if path != [] && path[0] in base && path[0] in patch && base[path[0]].Doc? && patch[path[0]].Doc? {
      MergeLookup(base[path[0]].fields, patch[path[0]].fields, path[1..]);
    }
  }

  // ----- One key of a whole patch list -----

  function FoldAt(c: Option<Value>, qs: seq<Fields>, k: string): Option<Value>
    decreases |qs|
  {
    if qs == [] then c
    else FoldAt(if k in qs[0] then Some(Overlay(c, qs[0][k])) else c, qs[1..], k)
  }

  lemma {:induction false} FoldIsKeywise(base: Fields, qs: seq<Fields>, k: string)
    ensures At(Fold(base, qs), k) == FoldAt(At(base, k), qs, k)
    decreases |qs|
  {
    if qs != [] {
      FoldIsKeywise(Merge(base, qs[0]), qs[1..], k);
    }
  }

  predicate AllDocs(qs: seq<Fields>, k: string)
  {
    forall i :: 0 <= i < |qs| && k in qs[i] ==> qs[i][k].Doc?
  }

  function Subs(qs: seq<Fields>, k: string): seq<Fields>
    requires AllDocs(qs, k)
    decreases |qs|
  {
    if qs == [] then []
    else (if k in qs[0] then [qs[0][k].fields] else []) + Subs(qs[1..], k)
  }

  lemma MergeOntoNothing(p: Fields)
    ensures Merge(map[], p) == p
  {
  }

  lemma OverlayDoc(c: Option<Value>, v: Value)
    requires v.Doc?
    ensures Overlay(c, v) == Doc(Merge(Base(c), v.fields))
  {
    MergeOntoNothing(v.fields);
  }

  // As long as every patch puts a map at k, the list acts there as the list of those maps.
  lemma {:induction false} FoldAtDocs(c: Option<Value>, qs: seq<Fields>, k: string)
    requires AllDocs(qs, k)
    ensures Base(FoldAt(c, qs, k)) == Fold(Base(c), Subs(qs, k))
    decreases |qs|
  {
    if qs == [] {
    } else if k in qs[0] {
      OverlayDoc(c, qs[0][k]);
      FoldAtDocs(Some(Overlay(c, qs[0][k])), qs[1..], k);
      assert Subs(qs, k)[0] == qs[0][k].fields;
      assert Subs(qs, k)[1..] == Subs(qs[1..], k);
    } else {
      FoldAtDocs(c, qs[1..], k);
      assert Subs(qs, k) == Subs(qs[1..], k);
    }
  }

  // A patch that puts a leaf at k forgets whatever was there before the list ran.
  lemma {:induction false} FoldAtForgets(c: Option<Value>, d: Option<Value>, qs: seq<Fields>, k: string)
    requires !AllDocs(qs, k)
    ensures FoldAt(c, qs, k) == FoldAt(d, qs, k)
    decreases |qs|
  {
    if k in qs[0] && qs[0][k].Leaf? {
    } else {
      assert !AllDocs(qs[1..], k) by {
        var i :| 0 <= i < |qs| && k in qs[i] && qs[i][k].Leaf?;
        assert qs[i] == qs[1..][i - 1];
      }
      FoldAtForgets(if k in qs[0] then Some(Overlay(c, qs[0][k])) else c,
                    if k in qs[0] then Some(Overlay(d, qs[0][k])) else d, qs[1..], k);
    }
  }

  // ----- Running a patch that will run again later makes no difference -----

  lemma {:induction false} Redo(base: Fields, p: Fields, qs: seq<Fields>)
    ensures Merge(Fold(Merge(base, p), qs), p) == Merge(Fold(base, qs), p)
    decreases Doc(p), 1
  {
    var x, y := Fold(Merge(base, p), qs), Fold(base, qs);
    forall k
      ensures At(Merge(x, p), k) == At(Merge(y, p), k)
    {
      FoldIsKeywise(Merge(base, p), qs, k);
      FoldIsKeywise(base, qs, k);
      if k in p {
        RedoAt(At(base, k), p[k], qs, k);
      }
    }
    SameKeywise(Merge(x, p), Merge(y, p));
  }

  lemma {:induction false} RedoAt(c: Option<Value>, v: Value, qs: seq<Fields>, k: string)
    ensures Overlay(FoldAt(Some(Overlay(c, v)), qs, k), v) == Overlay(FoldAt(c, qs, k), v)
    decreases v, 2
  {
    if v.Leaf? {
    } else if !AllDocs(qs, k) {
      FoldAtForgets(Some(Overlay(c, v)), c, qs, k);
    } else {
      OverlayDoc(c, v);
      FoldAtDocs(Some(Overlay(c, v)), qs, k);
      FoldAtDocs(c, qs, k);
      OverlayDoc(FoldAt(Some(Overlay(c, v)), qs, k), v);
      OverlayDoc(FoldAt(c, qs, k), v);
      Redo(Base(c), v.fields, Subs(qs, k));
    }
  }

  lemma SameKeywise(a: Fields, b: Fields)
    requires forall k :: At(a, k) == At(b, k)
    ensures a == b
  {
    assert forall k :: k in a <==> At(a, k).Some?;
    assert forall k :: k in b <==> At(b, k).Some?;
    assert a.Keys == b.Keys;
    assert forall k :: k in a ==> a[k] == At(a, k).value;
  }

  lemma {:induction false} FoldAppend(base: Fields, ps: seq<Fields>, qs: seq<Fields>)
    ensures Fold(base, ps + qs) == Fold(Fold(base, ps), qs)
    decreases |ps|
  {
    if ps == [] {
      assert ps + qs == qs;
    } else {
      assert (ps + qs)[1..] == ps[1..] + qs;
      FoldAppend(Merge(base, ps[0]), ps[1..], qs);
    }
  }

  lemma DropOne(base: Fields, p: Fields, before: seq<Fields>)
    ensures Fold(base, [p] + before + [p]) == Fold(base, before + [p])
  {
    FoldAppend(base, [p] + before, [p]);
    FoldAppend(base, [p], before);
    FoldAppend(base, before, [p]);
    Redo(base, p, before);
    assert forall x: Fields :: Fold(x, [p]) == Merge(x, p) by {
      forall x: Fields ensures Fold(x, [p]) == Merge(x, p) { assert [p][1..] == []; }
    }
  }

  // A patch that comes again later in the list can be left out.
  lemma DropEarlier(base: Fields, before: seq<Fields>, p: Fields, between: seq<Fields>, after: seq<Fields>)
    ensures Fold(base, before + [p] + between + [p] + after) == Fold(base, before + between + [p] + after)
  {
    FoldAppend(base, before + [p] + between + [p], after);
    FoldAppend(base, before + between + [p], after);
    FoldAppend(base, before, [p] + between + [p]);
    FoldAppend(base, before, between + [p]);
    DropOne(Fold(base, before), p, between);
    assert before + [p] + between + [p] == before + ([p] + between + [p]);
    assert before + between + [p] == before + (between + [p]);
  }

  // Leaving out one patch after the other from the front of a run that ends with the whole list.
  lemma {:induction false} DropRun(base: Fields, ps: seq<Fields>, i: nat)
    requires i <= |ps|
    ensures Fold(base, ps[i..] + ps) == Fold(base, ps)
    decreases |ps| - i
  {
    if i == |ps| {
      assert ps[i..] + ps == ps;
    } else {
      var between, p, after := ps[i + 1..] + ps[..i], ps[i], ps[i + 1..];
      assert ps[i..] + ps == [] + [p] + between + [p] + after;
      assert ps[i + 1..] + ps == [] + between + [p] + after;
      DropEarlier(base, [], p, between, after);
      DropRun(base, ps, i + 1);
    }
  }

  // Running the whole patch list again over its own output changes nothing, whatever
  // map/leaf conflicts the list contains and however deep they sit.
  lemma RefoldIsIdempotent(base: Fields, ps: seq<Fields>)
    ensures Fold(Fold(base, ps), ps) == Fold(base, ps)
  {
    assert ps[0..] == ps;
    FoldAppend(base, ps, ps);
    DropRun(base, ps, 0);
  }

  // ----- Exactly when merging is associative -----

  // Nothing of a shows once c is merged onto it.
  predicate Covers(c: Fields, a: Fields)
    decreases Doc(c)
  {
    forall k :: k in a ==> k in c && (a[k].Doc? && c[k].Doc? ==> Covers(c[k].fields, a[k].fields))
  }

  // Wherever a and c both have a map, b has one too, or no value, or c covers a there.
  predicate Associates(a: Fields, b: Fields, c: Fields)
    decreases Doc(c), 1
  {
    forall k :: k in c ==> AssociatesAt(a, b, c, k)
  }

  predicate AssociatesAt(a: Fields, b: Fields, c: Fields, k: string)
    decreases Doc(c), 0
  {
    k in a && k in b && k in c && a[k].Doc? && c[k].Doc? ==>
      if b[k].Doc? then Associates(a[k].fields, b[k].fields, c[k].fields) else Covers(c[k].fields, a[k].fields)
  }

  lemma MergeAt(a: Fields, c: Fields, k: string)
    requires k in c
    ensures Merge(a, c)[k] == if k in a && a[k].Doc? && c[k].Doc? then Doc(Merge(a[k].fields, c[k].fields)) else c[k]
  {
  }

  lemma {:induction false} CoversExactly(c: Fields, a: Fields)
    ensures Merge(a, c) == c <==> Covers(c, a)
    decreases Doc(c)
  {
    forall k | k in a && k in c && a[k].Doc? && c[k].Doc?
      ensures Merge(a[k].fields, c[k].fields) == c[k].fields <==> Covers(c[k].fields, a[k].fields)
    {
      CoversExactly(c[k].fields, a[k].fields);
    }
    var m := Merge(a, c);
    assert m.Keys == a.Keys + c.Keys;
    if Covers(c, a) {
      assert m.Keys == c.Keys;
      forall k | k in c ensures m[k] == c[k] {
        MergeAt(a, c, k);
      }
    } else {
      var k :| k in a && !(k in c && (a[k].Doc? && c[k].Doc? ==> Covers(c[k].fields, a[k].fields)));
      assert k in m;
    }
  }

  // One key of the two ways to merge three maps.
  lemma OneKey(a: Fields, b: Fields, c: Fields, k: string)
    ensures var l, r := At(Merge(Merge(a, b), c), k), At(Merge(a, Merge(b, c)), k);
            if k in a && k in b && k in c && a[k].Doc? && c[k].Doc? then
              if b[k].Doc? then
                && l == Some(Doc(Merge(Merge(a[k].fields, b[k].fields), c[k].fields)))
                && r == Some(Doc(Merge(a[k].fields, Merge(b[k].fields, c[k].fields))))
              else l == Some(c[k]) && r == Some(Doc(Merge(a[k].fields, c[k].fields)))
            else l == r
  {
  }

  // The order of a patch list is part of its meaning: three patches may be grouped either way
  // exactly when no value that is not a map comes between two maps one of which shows through.
  lemma {:induction false} MergeAssociatesExactly(a: Fields, b: Fields, c: Fields)
    ensures Merge(Merge(a, b), c) == Merge(a, Merge(b, c)) <==> Associates(a, b, c)
    decreases Doc(c)
  {
    var l, r := Merge(Merge(a, b), c), Merge(a, Merge(b, c));
    forall k ensures (At(l, k) == At(r, k)) == AssociatesAt(a, b, c, k) {
      hide Merge;
      OneKey(a, b, c, k);
      if k in a && k in b && k in c && a[k].Doc? && c[k].Doc? {
        if b[k].Doc? {
          MergeAssociatesExactly(a[k].fields, b[k].fields, c[k].fields);
        } else {
          CoversExactly(c[k].fields, a[k].fields);
        }
      }
    }
    hide Merge;
    if Associates(a, b, c) {
      assert forall k :: AssociatesAt(a, b, c, k);
      SameKeywise(l, r);
    } else {
      var k :| k in c && !AssociatesAt(a, b, c, k);
      assert At(l, k) != At(r, k);
    }
  }

  // The failing family: a map, a value that is not a map, and a map that leaves out a key of the first.
  lemma MergeIsNotAssociative(a: Fields, b: Fields, c: Fields, k: string, x: string)
    requires k in a && k in b && k in c && a[k].Doc? && b[k].Leaf? && c[k].Doc?
    requires x in a[k].fields && x !in c[k].fields
    ensures Merge(Merge(a, b), c) != Merge(a, Merge(b, c))
  {
    hide Merge;
    assert !Covers(c[k].fields, a[k].fields);
    assert !AssociatesAt(a, b, c, k);
    MergeAssociatesExactly(a, b, c);
  }

  // ----- The two loops of applyConfig -----

  // One raw patch: YAML that does not parse, or its fields with the trimmed source text.
  datatype RawPatch = Unparseable | Parsed(fields: Fields, text: string)

  // One entry of spec.patchesFrom: the secret or its key may be missing.
  datatype SecretPatch = SecretMissing | KeyMissing | Found(raw: RawPatch)

  datatype Config = Config(fields: Fields, standalone: seq<string>)

  predicate IsStandalone(p: RawPatch)
  {
    p.Parsed? && "apiVersion" in p.fields
  }

  function MergeParts(ps: seq<RawPatch>): seq<Fields>
  {
    if ps == [] then []
    else MergeParts(ps[..|ps| - 1]) +
         (var p := ps[|ps| - 1]; if p.Parsed? && !IsStandalone(p) then [p.fields] else [])
  }

  function Standalones(ps: seq<RawPatch>): seq<string>
  {
    if ps == [] then []
    else Standalones(ps[..|ps| - 1]) +
         (var p := ps[|ps| - 1]; if IsStandalone(p) then [p.text] else [])
  }

  function Raws(refs: seq<SecretPatch>): seq<RawPatch>
  {
    seq(|refs|, i requires 0 <= i < |refs| => if refs[i].Found? then refs[i].raw else Unparseable)
  }

  // The configuration a node's patch lists stand for; None as soon as one entry cannot be used.
  function Built(base: Fields, inline: seq<RawPatch>, refs: seq<SecretPatch>): Option<Config>
  {
    var all := inline + Raws(refs);
    if Unparseable in all then None
    else Some(Config(Fold(base, MergeParts(all)), Standalones(all)))
  }

  method ApplyRawPatch(raw: RawPatch, base: Fields, standalone: seq<string>)
    returns (ok: bool, base': Fields, standalone': seq<string>)
    ensures ok == raw.Parsed?
    ensures !ok ==> base' == base && standalone' == standalone
    ensures ok ==> base' == (if IsStandalone(raw) then base else Merge(base, raw.fields))
    ensures ok ==> standalone' == (if IsStandalone(raw) then standalone + [raw.text] else standalone)
  {
    ok, base', standalone' := true, base, standalone;
    match raw
    case Unparseable => ok := false;
    case Parsed(fields, text) =>
      if "apiVersion" in fields {
        standalone' := standalone + [text];
      } else {
        base' := MergePatches(base, fields);
      }
  }

  method ApplyInlinePatches(base: Fields, inline: seq<RawPatch>)
    returns (ok: bool, config: Fields, standalone: seq<string>)
    ensures ok == (Unparseable !in inline)
    ensures ok ==> config == Fold(base, MergeParts(inline)) && standalone == Standalones(inline)
  {
    ok, config, standalone := true, base, [];
    var i := 0;
    while i < |inline|
      invariant 0 <= i <= |inline|
      invariant Unparseable !in inline[..i]
      invariant config == Fold(base, MergeParts(inline[..i])) && standalone == Standalones(inline[..i])
    {
      OneMorePatch(base, inline[..i], inline[i]);
      assert inline[..i + 1] == inline[..i] + [inline[i]];
      ok, config, standalone := ApplyRawPatch(inline[i], config, standalone);
      if !ok { return; }
      i := i + 1;
    }
    assert inline[..i] == inline;
  }

  method ApplySecretPatches(base: Fields, docs: seq<string>, refs: seq<SecretPatch>)
    returns (ok: bool, config: Fields, standalone: seq<string>)
    ensures ok == (Unparseable !in Raws(refs))
    ensures ok ==> config == Fold(base, MergeParts(Raws(refs))) && standalone == docs + Standalones(Raws(refs))
  {
    ok, config, standalone := true, base, docs;
    var j := 0;
    while j < |refs|
      invariant 0 <= j <= |refs|
      invariant Unparseable !in Raws(refs)[..j]
      invariant config == Fold(base, MergeParts(Raws(refs)[..j]))
      invariant standalone == docs + Standalones(Raws(refs)[..j])
    {
      if !refs[j].Found? {
        assert Raws(refs)[j] == Unparseable;
        return false, config, standalone;
      }
      OneMorePatch(base, Raws(refs)[..j], refs[j].raw);
      assert Raws(refs)[..j + 1] == Raws(refs)[..j] + [refs[j].raw];
      ok, config, standalone := ApplyRawPatch(refs[j].raw, config, standalone);
      if !ok {
        assert Raws(refs)[j] == Unparseable;
        return;
      }
      j := j + 1;
    }
    assert Raws(refs)[..j] == Raws(refs);
  }

  // Inline patches first, then the secret-backed ones, then the standalone documents.
  method BuildConfig(base: Fields, inline: seq<RawPatch>, refs: seq<SecretPatch>)
    returns (r: Option<Config>)
    ensures r == Built(base, inline, refs)
  {
    Splits(base, inline, Raws(refs));
    var ok, config, standalone := ApplyInlinePatches(base, inline);
    if !ok { return None; }
    ok, config, standalone := ApplySecretPatches(config, standalone, refs);
    r := if ok then Some(Config(config, standalone)) else None;
  }

  lemma {:induction false} Splits(base: Fields, ps: seq<RawPatch>, qs: seq<RawPatch>)
    ensures Fold(base, MergeParts(ps + qs)) == Fold(Fold(base, MergeParts(ps)), MergeParts(qs))
    ensures Standalones(ps + qs) == Standalones(ps) + Standalones(qs)
    decreases |qs|
  {
    if qs == [] {
      assert ps + qs == ps;
    } else {
      var front, q := qs[..|qs| - 1], qs[|qs| - 1];
      assert qs == front + [q];
      assert ps + qs == (ps + front) + [q];
      Splits(base, ps, front);
      OneMorePatch(base, ps + front, q);
      OneMorePatch(Fold(base, MergeParts(ps)), front, q);
    }
  }

  lemma OneMorePatch(base: Fields, ps: seq<RawPatch>, p: RawPatch)
    ensures Fold(base, MergeParts(ps + [p])) ==
            if !p.Parsed? || IsStandalone(p) then Fold(base, MergeParts(ps)) else Merge(Fold(base, MergeParts(ps)), p.fields)
    ensures Standalones(ps + [p]) == Standalones(ps) + (if IsStandalone(p) then [p.text] else [])
  {
    assert (ps + [p])[..|ps|] == ps;
    if !p.Parsed? || IsStandalone(p) {
      assert MergeParts(ps + [p]) == MergeParts(ps);
    } else {
      FoldAppend(base, MergeParts(ps), [p.fields]);
      assert [p.fields][1..] == [];
    }
  }

  // What one more entry makes of a configuration: nothing usable stays unusable; a document of its
  // own comes last, as it is written; and any other is merged onto what is there.
  function WithEntry(before: Option<Config>, p: SecretPatch): Option<Config>
  {
    if before.None? || !p.Found? || p.raw.Unparseable? then None
    else if "apiVersion" in p.raw.fields then Some(before.value.(standalone := before.value.standalone + [p.raw.text]))
    else Some(before.value.(fields := Merge(before.value.fields, p.raw.fields)))
  }

  // A configuration is its base with the entries added one by one, the inline patches in their
  // order and then those from secrets in theirs.
  lemma BuiltStepwise(base: Fields, inline: seq<RawPatch>, refs: seq<SecretPatch>, raw: RawPatch, p: SecretPatch)
    ensures Built(base, [], []) == Some(Config(base, []))
    ensures Built(base, inline + [raw], []) == WithEntry(Built(base, inline, []), Found(raw))
    ensures Built(base, inline, refs + [p]) == WithEntry(Built(base, inline, refs), p)
  {
    hide Fold, MergeParts, Standalones;
    Nothing(base);
    var none: seq<RawPatch> := [];
    assert Raws([]) == none && none + Raws([]) == none;
    assert inline + [] == inline && (inline + [raw]) + [] == inline + [raw];
    OneMore(base, inline, raw);
    var last := if p.Found? then p.raw else Unparseable;
    assert Raws(refs + [p]) == Raws(refs) + [last];
    assert inline + (Raws(refs) + [last]) == (inline + Raws(refs)) + [last];
    OneMore(base, inline + Raws(refs), last);
  }

  lemma Nothing(base: Fields)
    ensures Fold(base, MergeParts([])) == base && Standalones([]) == []
  {
  }

  lemma OneMore(base: Fields, ps: seq<RawPatch>, p: RawPatch)
    ensures var all := ps + [p];
            var before := if Unparseable in ps then None else Some(Config(Fold(base, MergeParts(ps)), Standalones(ps)));
            (if Unparseable in all then None else Some(Config(Fold(base, MergeParts(all)), Standalones(all)))) == WithEntry(before, Found(p))
  {
    OneMorePatch(base, ps, p);
    hide Fold, MergeParts, Standalones;
    assert Standalones(ps) + [] == Standalones(ps);
  }

  // So the last entry wins, leaf by leaf, wherever it does not leave one alone.
  lemma LastEntryWins(base: Fields, inline: seq<RawPatch>, refs: seq<SecretPatch>, p: RawPatch, path: seq<string>)
    requires Built(base, inline, refs).Some? && p.Parsed? && !IsStandalone(p)
    ensures var before, after := Built(base, inline, refs).value, Built(base, inline, refs + [Found(p)]);
            && after.Some? && after.value.standalone == before.standalone
            && Lookup(after.value.fields, path) ==
               if Shadows(before.fields, p.fields, path) then Lookup(p.fields, path) else Lookup(before.fields, path)
  {
    hide Built, Merge, Lookup, Shadows;
    BuiltStepwise(base, inline, refs, p, Found(p));
    MergeLookup(Built(base, inline, refs).value.fields, p.fields, path);
  }

  // Building a node's configuration from its own saved output reproduces it.
  lemma RebuildIsIdempotent(base: Fields, inline: seq<RawPatch>, refs: seq<SecretPatch>)
    ensures var b := Built(base, inline, refs);
            b.Some? ==> Built(b.value.fields, inline, refs) == b
  {
    RefoldIsIdempotent(base, MergeParts(inline + Raws(refs)));
  }
}
