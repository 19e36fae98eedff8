/** Byte strings as Go's `[]byte` and `string` hold them, and the helpers the
    event accessors use to cut a line body at a separator byte. */
module Bytes {

  /** One byte of a management line, written as the character with the same
      code so that lines read as text. All 256 values are bytes: NUL and bytes
      that are not valid UTF-8 are ordinary values. */
  type byte = c: char | c as int < 256

  /** The byte with value `n`. */
  function ByteOf(n: int): (b: byte)
    requires 0 <= n < 256
    ensures b as int == n
  {
    n as char
  }

  /** Position of the first `c` in `s`, or -1 when there is none (Go's
      `bytes.IndexByte`). */
  function IndexOf(s: seq<byte>, c: byte): (k: int)
    ensures -1 <= k < |s|
    ensures k == -1 <==> c !in s
    ensures k >= 0 ==> s[k] == c && forall j | 0 <= j < k :: s[j] != c
  {
    if |s| == 0 then -1
    else if s[0] == c then 0
    else
      var k := IndexOf(s[1..], c);
      if k == -1 then -1 else k + 1
  }

  /** The outcome of cutting a byte string at the first occurrence of a separator. */
  datatype Cut = NotFound | Cut(before: seq<byte>, after: seq<byte>)

  /** Cuts `s` at its first `c`: the part before it and the part after it. */
  function SplitFirst(s: seq<byte>, c: byte): (r: Cut)
    ensures r.NotFound? <==> c !in s
    ensures r.Cut? ==> s == r.before + [c] + r.after && c !in r.before
  {
    var k := IndexOf(s, c);
    if k == -1 then NotFound
    else
      assert s == s[..k] + [c] + s[k + 1..];
      assert forall j | 0 <= j < k :: s[..k][j] == s[j];
      Cut(s[..k], s[k + 1..])
  }

  /** Any way of writing `s` as `a + [c] + b` with no `c` in `a` is the cut
      SplitFirst finds: only the first separator counts. */
  lemma SplitFirstOf(a: seq<byte>, c: byte, b: seq<byte>)
    requires c !in a
    ensures SplitFirst(a + [c] + b, c) == Cut(a, b)
  {
    var s := a + [c] + b;
    var k := IndexOf(s, c);
    assert s[..|a|] == a && s[|a|] == c;
    forall j | 0 <= j < |a| ensures s[j] != c { assert s[j] == a[j]; }
    assert s[k + 1..] == b;
  }

  /** Every `c`-separated field of `s`, in order (Go's `bytes.Split` with a
      one-byte separator): an empty `s` gives one empty field, and a string
      with n separators gives n + 1 fields. */
  function Split(s: seq<byte>, c: byte): (parts: seq<seq<byte>>)
    ensures |parts| >= 1
    ensures forall i | 0 <= i < |parts| :: c !in parts[i]
    ensures c !in s ==> parts == [s]
    decreases |s|
  {
    match SplitFirst(s, c)
    case NotFound => [s]
    case Cut(before, after) => [before] + Split(after, c)
  }

  /** A separator-free field in front of a separator becomes the first field
      of the split, and splitting carries on after the separator. */
  lemma SplitCons(a: seq<byte>, c: byte, b: seq<byte>)
    requires c !in a
    ensures Split(a + [c] + b, c) == [a] + Split(b, c)
  {
    SplitFirstOf(a, c, b);
  }

  /** The fields glued back together with `c` between neighbours. */
  function Join(parts: seq<seq<byte>>, c: byte): seq<byte>
  {
    if |parts| == 0 then []
    else if |parts| == 1 then parts[0]
    else parts[0] + [c] + Join(parts[1..], c)
  }

  /** Joining two and three fields. */
  lemma JoinTwo(a: seq<byte>, b: seq<byte>, c: byte)
    ensures Join([a, b], c) == a + [c] + b
  {
    assert [a, b][1..] == [b];
  }

  lemma JoinThree(a: seq<byte>, b: seq<byte>, d: seq<byte>, c: byte)
    ensures Join([a, b, d], c) == a + [c] + b + [c] + d
  {
    assert [a, b, d][1..] == [b, d];
    JoinTwo(b, d, c);
    assert a + [c] + (b + [c] + d) == a + [c] + b + [c] + d;
  }

  /** Splitting loses nothing: joining the fields gives the input back. */
  lemma {:induction false} JoinSplit(s: seq<byte>, c: byte)
    ensures Join(Split(s, c), c) == s
    decreases |s|
  {
    match SplitFirst(s, c)
    case NotFound =>
    case Cut(before, after) =>
      JoinSplit(after, c);
      assert Split(s, c)[1..] == Split(after, c);
  }

  /** Splitting recovers the fields of a join, provided none of them holds
      the separator; so the fields of a body are exactly its comma positions. */
  lemma {:induction false} SplitJoin(parts: seq<seq<byte>>, c: byte)
    requires |parts| >= 1
    requires forall i | 0 <= i < |parts| :: c !in parts[i]
    ensures Split(Join(parts, c), c) == parts
    decreases |parts|
  {
    if |parts| > 1 {
      var rest := parts[1..];
      assert forall i | 0 <= i < |rest| :: c !in rest[i] by {
        forall i | 0 <= i < |rest| ensures c !in rest[i] { assert rest[i] == parts[i + 1]; }
      }
      SplitJoin(rest, c);
      assert Join(parts, c) == parts[0] + [c] + Join(rest, c);
      SplitCons(parts[0], c, Join(rest, c));
      assert parts == [parts[0]] + rest;
    } else {
      assert c !in parts[0];
    }
  }

  /** The field at position `i`, or the empty string when there are fewer
      fields: the "missing field reads as empty" default. */
  function FieldAt(parts: seq<seq<byte>>, i: nat): seq<byte>
  {
    if i < |parts| then parts[i] else []
  }
}
