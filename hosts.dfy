/**
 * Host lists given as one comma-separated string (`"a:1,b:2"`), as
 * `str.split(',')` cuts them: every comma ends a piece, empty pieces are
 * kept, and the result is never empty.
 */
module Hosts {

  const Comma: char := ','

  /** `s.split(',')`. */
  function Split(s: string): (parts: seq<string>)
    ensures |parts| >= 1
    ensures forall i :: 0 <= i < |parts| ==> Comma !in parts[i]
  {
    if s == [] then
      [""]
    else
      var rest := Split(s[1..]);
      if s[0] == Comma then [""] + rest
      else [[s[0]] + rest[0]] + rest[1..]
  }

  /** `','.join(parts)`, the reference inverse of Split. */
  function Join(parts: seq<string>): (s: string)
    requires |parts| >= 1
  {
    if |parts| == 1 then parts[0] else parts[0] + [Comma] + Join(parts[1..])
  }

  /** Joining the pieces with commas gives back the original string. */
  lemma {:induction false} JoinSplit(s: string)
    ensures Join(Split(s)) == s
  {
    if s != [] {
      var rest := Split(s[1..]);
      JoinSplit(s[1..]);
      if s[0] != Comma && |rest| > 1 {
        assert Join(rest) == rest[0] + [Comma] + Join(rest[1..]);
        assert Split(s)[1..] == rest[1..];
      }
    }
  }

  /** A comma-free prefix is glued to the first piece of what follows it. */
  lemma {:induction false} SplitPrefix(a: string, rest: string)
    requires Comma !in a
    ensures Split(a + rest) == [a + Split(rest)[0]] + Split(rest)[1..]
  {
    if a != [] {
      assert (a + rest)[0] == a[0];
      assert (a + rest)[1..] == a[1..] + rest;
      SplitPrefix(a[1..], rest);
      assert [a[0]] + (a[1..] + Split(rest)[0]) == a + Split(rest)[0];
    } else {
      assert a + rest == rest;
      assert a + Split(rest)[0] == Split(rest)[0];
      assert Split(rest) == [Split(rest)[0]] + Split(rest)[1..];
    }
  }

  /** Splitting comma-free pieces joined with commas gives back the pieces. */
  lemma {:induction false} SplitJoin(parts: seq<string>)
    requires |parts| >= 1
    requires forall i :: 0 <= i < |parts| ==> Comma !in parts[i]
    ensures Split(Join(parts)) == parts
  {
    if |parts| == 1 {
      SplitPrefix(parts[0], "");
      assert parts[0] + "" == parts[0];
    } else {
      var tail := Join(parts[1..]);
      SplitJoin(parts[1..]);
      SplitPrefix(parts[0], [Comma] + tail);
      assert ([Comma] + tail)[1..] == tail;
      assert parts[0] + ([Comma] + tail) == parts[0] + [Comma] + tail;
      assert parts[0] + "" == parts[0];
      assert parts == [parts[0]] + parts[1..];
    }
  }

  /** Split is the only comma-free decomposition that joins back to s. */
  lemma SplitUnique(s: string, parts: seq<string>)
    requires |parts| >= 1
    requires forall i :: 0 <= i < |parts| ==> Comma !in parts[i]
    requires Join(parts) == s
    ensures parts == Split(s)
  {
    SplitJoin(parts);
  }

  /** The host strings `a:1,b:2` and `c:3`, split. */
  lemma SplitExample()
    ensures Split("a:1,b:2") == ["a:1", "b:2"]
    ensures Split("c:3") == ["c:3"]
  {
    var p := ["a:1", "b:2"];
    assert Join(p[1..]) == "b:2";
    assert Join(p) == "a:1,b:2";
    SplitJoin(p);
    SplitJoin(["c:3"]);
  }
}
