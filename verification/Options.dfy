// What the whole project shares: options, and how a row of calls ends.
module Options {
  datatype Option<+T> = None | Some(value: T)

  // Calls are made in order until one does not succeed; the row ends as that one does.
  function Ends<T(==)>(calls: seq<T>, done: T): T
  {
    if calls == [] then done else if calls[0] != done then calls[0] else Ends(calls[1..], done)
  }

  lemma {:induction false} EndsAppend<T>(a: seq<T>, b: seq<T>, done: T)
    ensures Ends(a + b, done) == if Ends(a, done) != done then Ends(a, done) else Ends(b, done)
    decreases |a|
  {
    if a == [] {
      assert a + b == b;
    } else {
      assert (a + b)[1..] == a[1..] + b;
      EndsAppend(a[1..], b, done);
    }
  }

  lemma ShortRows<T>(a: T, b: T, c: T, d: T, done: T)
    ensures Ends([a], done) == a
    ensures Ends([a, b], done) == if a != done then a else b
    ensures Ends([a, b, c], done) == if a != done then a else if b != done then b else c
    ensures Ends([a, b, c, d], done) == if a != done then a else if b != done then b else if c != done then c else d
  {
    EndsCons(a, [], done);
    EndsCons(a, [b], done);
    EndsCons(b, [], done);
    EndsCons(a, [b, c], done);
    EndsCons(b, [c], done);
    EndsCons(c, [], done);
    EndsCons(a, [b, c, d], done);
    EndsCons(b, [c, d], done);
    EndsCons(c, [d], done);
    EndsCons(d, [], done);
    assert [a] + [] == [a] && [a] + [b] == [a, b] && [a] + [b, c] == [a, b, c] && [a] + [b, c, d] == [a, b, c, d];
    assert [b] + [] == [b] && [b] + [c] == [b, c] && [b] + [c, d] == [b, c, d];
    assert [c] + [] == [c] && [c] + [d] == [c, d] && [d] + [] == [d];
  }

  lemma EndsCons<T>(first: T, rest: seq<T>, done: T)
    ensures Ends([first] + rest, done) == if first != done then first else Ends(rest, done)
    ensures Ends([], done) == done
  {
    assert ([first] + rest)[1..] == rest;
  }
}
