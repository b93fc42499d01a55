// Installer images, version tags and the key under which the schematic cache is kept.
module Images {
  import opened Options

  // ----- Version tags -----

  function LastIndex(s: string, c: char): (i: int)
    ensures -1 <= i < |s|
    ensures i >= 0 ==> s[i] == c
    ensures forall j :: i < j < |s| ==> s[j] != c
  {
    if s == "" then -1
    else if s[|s| - 1] == c then |s| - 1
    else LastIndex(s[..|s| - 1], c)
  }

  function VersionFromImage(image: string): string
  {
    var i := LastIndex(image, ':');
    if i < 0 || i == |image| - 1 then "" else image[i + 1..]
  }

  function NormalizeVersion(v: string): string
  {
    if v != "" && v[0] != 'v' then "v" + v else v
  }

  lemma LastIndexIs(s: string, c: char, i: nat)
    requires i < |s| && s[i] == c && c !in s[i + 1..]
    ensures LastIndex(s, c) == i
  {
    hide LastIndex;
    assert forall j :: i < j < |s| ==> s[j] == s[i + 1..][j - i - 1];
  }

  lemma VersionIsTextAfterLastColon(image: string, tag: string)
    requires tag != ""
    ensures VersionFromImage(image) == tag <==> ':' !in tag && |image| > |tag| && image == image[..|image| - |tag| - 1] + ":" + tag
  {
    hide LastIndex;
    var i := LastIndex(image, ':');
    if ':' !in tag && |image| > |tag| && image == image[..|image| - |tag| - 1] + ":" + tag {
      var k := |image| - |tag| - 1;
      assert image[k + 1..] == tag && image[k] == ':';
      LastIndexIs(image, ':', k);
    }
    if VersionFromImage(image) == tag {
      assert image == image[..i] + [image[i]] + image[i + 1..];
    }
  }

  // ----- Version order -----

  // Semantic-version precedence: a partial parse into a total preorder, given by its ranks.
  type Order = string -> Option<real>

  // Anything that does not parse, including the empty string, is never called a downgrade.
  predicate IsDowngrade(order: Order, current: string, target: string)
  {
    && current != "" && target != ""
    && order(current).Some? && order(target).Some?
    && order(current).value > order(target).value
  }

  // ----- The schematic cache key -----

  // Byte-wise string order, as used by sort.Strings.
  predicate Precedes(a: string, b: string)
  {
    a == "" || (b != "" && (a[0] < b[0] || (a[0] == b[0] && Precedes(a[1..], b[1..]))))
  }

  function Insert(x: string, s: seq<string>): seq<string>
  {
    if s == [] || Precedes(x, s[0]) then [x] + s else [s[0]] + Insert(x, s[1..])
  }

  function SortStrings(s: seq<string>): seq<string>
  {
    if s == [] then [] else Insert(s[0], SortStrings(s[1..]))
  }

  function Join(s: seq<string>): string
  {
    if s == [] then "" else if |s| == 1 then s[0] else s[0] + "," + Join(s[1..])
  }

  function CanonicalExtensions(extensions: seq<string>): string
  {
    Join(SortStrings(extensions))
  }

  predicate Ordered(s: seq<string>)
  {
    forall i, j :: 0 <= i < j < |s| ==> Precedes(s[i], s[j])
  }

  lemma {:induction false} PrecedesTotal(a: string, b: string)
    ensures Precedes(a, b) || Precedes(b, a)
  {
    if a != "" && b != "" && a[0] == b[0] { PrecedesTotal(a[1..], b[1..]); }
  }

  lemma {:induction false} PrecedesAntisymmetric(a: string, b: string)
    requires Precedes(a, b) && Precedes(b, a)
    ensures a == b
  {
    if a != "" {
      PrecedesAntisymmetric(a[1..], b[1..]);
      assert a == [a[0]] + a[1..] && b == [b[0]] + b[1..];
    }
  }

  lemma {:induction false} PrecedesTransitive(a: string, b: string, c: string)
    requires Precedes(a, b) && Precedes(b, c)
    ensures Precedes(a, c)
  {
    if a != "" && b != "" && c != "" && a[0] == b[0] == c[0] { PrecedesTransitive(a[1..], b[1..], c[1..]); }
  }

  lemma {:induction false} InsertKeepsOrder(x: string, s: seq<string>)
    requires Ordered(s)
    ensures Ordered(Insert(x, s)) && multiset(Insert(x, s)) == multiset(s) + multiset{x}
  {
    if s == [] {
    } else if Precedes(x, s[0]) {
      forall j | 0 < j < |s| ensures Precedes(x, s[j]) { PrecedesTransitive(x, s[0], s[j]); }
    } else {
      PrecedesTotal(x, s[0]);
      InsertKeepsOrder(x, s[1..]);
      var r := Insert(x, s[1..]);
      assert s == [s[0]] + s[1..];
      forall j | 0 <= j < |r| ensures Precedes(s[0], r[j]) {
        assert r[j] in multiset(r);
        assert r[j] == x || r[j] in s[1..];
      }
    }
  }

  lemma {:induction false} SortSorts(s: seq<string>)
    ensures Ordered(SortStrings(s)) && multiset(SortStrings(s)) == multiset(s)
  {
    if s != [] {
      SortSorts(s[1..]);
      InsertKeepsOrder(s[0], SortStrings(s[1..]));
      assert s == [s[0]] + s[1..];
    }
  }

  lemma SameTail(a: seq<string>, b: seq<string>)
    requires a != [] && b != [] && a[0] == b[0] && multiset(a) == multiset(b)
    ensures multiset(a[1..]) == multiset(b[1..])
  {
    assert a == [a[0]] + a[1..] && b == [b[0]] + b[1..];
    assert multiset(a[1..]) == multiset(a) - multiset{a[0]};
    assert multiset(b[1..]) == multiset(b) - multiset{b[0]};
  }

  lemma {:induction false} OrderedIsUnique(a: seq<string>, b: seq<string>)
    requires Ordered(a) && Ordered(b) && multiset(a) == multiset(b)
    ensures a == b
  {
    if a == [] {
      assert |b| == |multiset(b)| == |multiset(a)| == 0;
    } else {
      assert a[0] in multiset(b) && b != [];
      assert b[0] in multiset(a);
      if a[0] != b[0] {
        var i :| 0 <= i < |b| && b[i] == a[0];
        var j :| 0 <= j < |a| && a[j] == b[0];
        PrecedesAntisymmetric(a[0], b[0]);
      }
      SameTail(a, b);
      OrderedIsUnique(a[1..], b[1..]);
    }
  }

  // ----- Which lists share a key -----

  // The text between the commas.
  function Split(s: string): (r: seq<string>)
    ensures r != []
  {
    if s == "" then [""]
    else
      var rest := Split(s[1..]);
      if s[0] == ',' then [""] + rest else [[s[0]] + rest[0]] + rest[1..]
  }

  // The names of a list, taken apart at their commas; no name at all reads as one empty name.
  function Pieces(s: seq<string>): seq<string>
  {
    if s == [] then [""] else if |s| == 1 then Split(s[0]) else Split(s[0]) + Pieces(s[1..])
  }

  lemma {:induction false} SplitJoined(a: string, b: string)
    ensures Split(a + "," + b) == Split(a) + Split(b)
  {
    var s := a + "," + b;
    if a == "" {
      assert s[1..] == b;
    } else {
      assert s[1..] == a[1..] + "," + b;
      SplitJoined(a[1..], b);
    }
  }

  lemma {:induction false} PiecesOfJoin(s: seq<string>)
    ensures Split(Join(s)) == Pieces(s)
  {
    if |s| > 1 {
      PiecesOfJoin(s[1..]);
      SplitJoined(s[0], Join(s[1..]));
    }
  }

  lemma {:induction false} JoinUndoesSplit(s: string)
    ensures Join(Split(s)) == s
  {
    if s != "" {
      var rest := Split(s[1..]);
      JoinUndoesSplit(s[1..]);
      if s[0] == ',' {
        assert ([""] + rest)[1..] == rest;
      } else {
        assert ([[s[0]] + rest[0]] + rest[1..])[1..] == rest[1..];
      }
      assert s == [s[0]] + s[1..];
    }
  }

  // Two lists share a cache key exactly when, sorted and taken apart at their commas, they are
  // the same.
  lemma CanonicalKeyExactly(a: seq<string>, b: seq<string>)
    ensures CanonicalExtensions(a) == CanonicalExtensions(b) <==> Pieces(SortStrings(a)) == Pieces(SortStrings(b))
  {
    PiecesOfJoin(SortStrings(a));
    PiecesOfJoin(SortStrings(b));
    JoinUndoesSplit(CanonicalExtensions(a));
    JoinUndoesSplit(CanonicalExtensions(b));
  }

  predicate PlainNames(s: seq<string>)
  {
    forall x :: x in s ==> x != "" && ',' !in x
  }

  lemma {:induction false} PlainIsOnePiece(x: string)
    requires ',' !in x
    ensures Split(x) == [x]
  {
    if x != "" {
      PlainIsOnePiece(x[1..]);
      assert x == [x[0]] + x[1..];
    }
  }

  lemma {:induction false} PlainArePieces(s: seq<string>)
    requires PlainNames(s) && s != []
    ensures Pieces(s) == s
  {
    assert s[0] in s && s == [s[0]] + s[1..];
    PlainIsOnePiece(s[0]);
    if |s| > 1 {
      assert forall x :: x in s[1..] ==> x in s;
      PlainArePieces(s[1..]);
    }
  }

  // For plain names the cache key identifies the extension list exactly up to order.
  lemma CanonicalKeyIsExact(a: seq<string>, b: seq<string>)
    requires PlainNames(a) && PlainNames(b)
    ensures CanonicalExtensions(a) == CanonicalExtensions(b) <==> multiset(a) == multiset(b)
  {
    SortSorts(a);
    SortSorts(b);
    if multiset(a) == multiset(b) {
      OrderedIsUnique(SortStrings(a), SortStrings(b));
    }
    if CanonicalExtensions(a) == CanonicalExtensions(b) {
      CanonicalKeyExactly(a, b);
      SortKeepsNames(a);
      SortKeepsNames(b);
      PlainPiecesDiffer(SortStrings(a), SortStrings(b));
    }
  }

  lemma PlainPiecesDiffer(a: seq<string>, b: seq<string>)
    requires PlainNames(a) && PlainNames(b) && Pieces(a) == Pieces(b)
    ensures a == b
  {
    if a != [] { PlainArePieces(a); assert a[0] in a; }
    if b != [] { PlainArePieces(b); assert b[0] in b; }
  }

  lemma SortKeepsNames(s: seq<string>)
    requires PlainNames(s)
    ensures PlainNames(SortStrings(s))
  {
    SortSorts(s);
    forall x | x in SortStrings(s) ensures x in s {
      assert x in multiset(SortStrings(s));
    }
  }

  // A comma inside a name, or an empty name, makes two different lists share a key.
  lemma CanonicalKeyNeedsPlainNames()
    ensures CanonicalExtensions(["a,b"]) == CanonicalExtensions(["a", "b"])
    ensures CanonicalExtensions([]) == CanonicalExtensions([""])
  {
    assert Precedes("a", "b") && ["a", "b"][1..] == ["b"] && ["b"][1..] == ["a,b"][1..] == [""][1..] == [];
    assert SortStrings(["b"]) == ["b"] && SortStrings(["a,b"]) == ["a,b"] && SortStrings([""]) == [""];
    assert SortStrings(["a", "b"]) == ["a", "b"];
    assert Split("a,b") == Split("a") + Split("b") by { SplitJoined("a", "b"); assert "a,b" == "a" + "," + "b"; }
    assert Pieces(["b"]) == Split("b");
    CanonicalKeyExactly(["a,b"], ["a", "b"]);
    CanonicalKeyExactly([], [""]);
  }

  // ----- The desired image -----

  // What the Image Factory answers; no client at all is an error of its own.
  datatype FactoryReply = NoFactory | FactoryFailed | Schematic(id: string)

  datatype Desired = DesiredError | Desired(image: string, newSchematic: string, newCanonical: string)

  const PLAIN_INSTALLER := "ghcr.io/siderolabs/installer"
  const FACTORY_INSTALLER := "factory.talos.dev/installer/"

  function InstallerImage(extensions: seq<string>, schematic: string, version: string): string
  {
    if extensions == [] then PLAIN_INSTALLER + ":" + version
    else FACTORY_INSTALLER + schematic + ":" + version
  }

  predicate CacheHit(extensions: seq<string>, lastExtensions: string, schematic: string)
  {
    CanonicalExtensions(extensions) == lastExtensions && schematic != ""
  }

  function ComputeDesiredImage(talosVersion: string, extensions: seq<string>,
                               lastExtensions: string, schematic: string, reply: FactoryReply): Desired
  {
    var version := NormalizeVersion(talosVersion);
    if extensions == [] then
      Desired(InstallerImage(extensions, "", version), "", "")
    else if CacheHit(extensions, lastExtensions, schematic) then
      Desired(InstallerImage(extensions, schematic, version), "", "")
    else match reply
      case Schematic(id) => Desired(InstallerImage(extensions, id, version), id, CanonicalExtensions(extensions))
      case _ => DesiredError
  }

  // The tag of every image computed for a version: the version itself unless it has a colon.
  function SpecTag(talosVersion: string): string
  {
    VersionFromImage(":" + NormalizeVersion(talosVersion))
  }

  lemma ImageTag(talosVersion: string, extensions: seq<string>, lastExtensions: string,
                 schematic: string, reply: FactoryReply)
    ensures var d := ComputeDesiredImage(talosVersion, extensions, lastExtensions, schematic, reply);
            d.Desired? ==> VersionFromImage(d.image) == SpecTag(talosVersion)
  {
    hide VersionFromImage, CanonicalExtensions;
    var tag := NormalizeVersion(talosVersion);
    var id := if CacheHit(extensions, lastExtensions, schematic) then schematic else
                if reply.Schematic? then reply.id else "";
    FrontDoesNotMatter(PLAIN_INSTALLER, tag);
    FrontDoesNotMatter(FACTORY_INSTALLER + id, tag);
  }

  lemma FrontDoesNotMatter(front: string, tag: string)
    ensures VersionFromImage(front + ":" + tag) == VersionFromImage(":" + tag)
  {
    hide LastIndex;
    var image, bare := front + ":" + tag, ":" + tag;
    assert image == front + bare;
    assert bare[0] == ':';
    var k := LastIndex(bare, ':');
    assert image[|front| + k] == bare[k];
    assert image[|front| + k + 1..] == bare[k + 1..];
    LastIndexIs(image, ':', |front| + k);
  }

  // Whatever the schematic, the tag read back from the computed image is the normalised spec version.
  lemma ImageRoundTrip(talosVersion: string, extensions: seq<string>, lastExtensions: string,
                       schematic: string, reply: FactoryReply)
    requires talosVersion != "" && ':' !in talosVersion
    ensures var d := ComputeDesiredImage(talosVersion, extensions, lastExtensions, schematic, reply);
            d.Desired? ==> VersionFromImage(d.image) == NormalizeVersion(talosVersion)
  {
    hide VersionFromImage, ComputeDesiredImage;
    ImageTag(talosVersion, extensions, lastExtensions, schematic, reply);
    PlainSpecTag(talosVersion);
  }

  lemma PlainSpecTag(talosVersion: string)
    requires ':' !in talosVersion
    ensures SpecTag(talosVersion) == NormalizeVersion(talosVersion)
  {
    var tag := NormalizeVersion(talosVersion);
    if tag != "" {
      TagIsReadBack("", tag);
      assert "" + ":" + tag == ":" + tag;
    }
  }

  lemma TagIsReadBack(front: string, tag: string)
    requires tag != "" && ':' !in tag
    ensures VersionFromImage(front + ":" + tag) == tag
  {
    hide VersionFromImage;
    var image := front + ":" + tag;
    assert image[..|image| - |tag| - 1] == front;
    VersionIsTextAfterLastColon(image, tag);
  }
}
