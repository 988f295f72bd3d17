/** Option and Result values shared by the whole model. */
module Wrappers {
  datatype Option<+T> = None | Some(value: T)
  datatype Result<+T, +E> = Ok(value: T) | Err(error: E)
}

/** Facts about sequences that the proofs name where they need them. */
module Sequences {
  lemma HeadAndTail<T>(head: T, tail: seq<T>)
    ensures ([head] + tail)[0] == head && ([head] + tail)[1..] == tail
  {
  }

  lemma Associative<T>(a: seq<T>, b: seq<T>, c: seq<T>)
    ensures (a + b) + c == a + (b + c)
  {
  }

  /** Parts put together, in order. */
  function Flatten<T>(parts: seq<seq<T>>): seq<T> {
    if parts == [] then [] else parts[0] + Flatten(parts[1..])
  }

  lemma {:induction false} FlattenAppend<T>(parts: seq<seq<T>>, part: seq<T>)
    ensures Flatten(parts + [part]) == Flatten(parts) + part
  {
    if parts == [] {
      assert [part][1..] == [];
      assert Flatten([part]) == part + Flatten([part][1..]);
    } else {
      FlattenAppend(parts[1..], part);
      assert (parts + [part])[1..] == parts[1..] + [part];
      Associative(parts[0], Flatten(parts[1..]), part);
    }
  }

  lemma FlattenLast<T>(parts: seq<seq<T>>)
    requires parts != []
    ensures Flatten(parts) == Flatten(parts[..|parts| - 1]) + parts[|parts| - 1]
  {
    FlattenAppend(parts[..|parts| - 1], parts[|parts| - 1]);
    assert parts == parts[..|parts| - 1] + [parts[|parts| - 1]];
  }

  lemma {:induction false} FlattenSplit<T>(parts: seq<seq<T>>, n: nat)
    requires n <= |parts|
    ensures Flatten(parts) == Flatten(parts[..n]) + Flatten(parts[n..])
  {
    if n == 0 {
      assert parts[0..] == parts;
    } else {
      FlattenSplit(parts[1..], n - 1);
      assert parts[1..][..n - 1] == parts[..n][1..] && parts[1..][n - 1..] == parts[n..];
      Associative(parts[0], Flatten(parts[..n][1..]), Flatten(parts[n..]));
    }
  }
}

module Bytes {
  type Byte = b: int | 0 <= b < 256

  const LF: Byte := 10
}

/** Identifiers are strings compared the way an ordered map compares them, and
    ordered maps and sets are walked in increasing key order. */
module Ids {
  type ThreadId = string
  type TurnId = string
  type CallId = string

  /** The key under which a tool call is tracked: call ids repeat across turns. */
  datatype Key = Key(turn: TurnId, call: CallId)

  /** The White_Space code points that trimming removes. */
  predicate IsWhitespace(c: char) {
    || '\t' <= c <= '\r' || c == ' ' || c == '\U{85}' || c == '\U{A0}' || c == '\U{1680}'
    || '\U{2000}' <= c <= '\U{200A}' || c == '\U{2028}' || c == '\U{2029}' || c == '\U{202F}'
    || c == '\U{205F}' || c == '\U{3000}'
  }

  /** Trimming leaves nothing. */
  predicate Blank(s: string) {
    forall i :: 0 <= i < |s| ==> IsWhitespace(s[i])
  }

  /** Lexicographic order on strings; on UTF-8 it is also the byte order. */
  predicate Less(a: string, b: string) {
    b != "" && (a == "" || a[0] < b[0] || (a[0] == b[0] && Less(a[1..], b[1..])))
  }

  predicate KeyLess(a: Key, b: Key) {
    Less(a.turn, b.turn) || (a.turn == b.turn && Less(a.call, b.call))
  }

  ghost predicate TotalOrder<T(!new)>(less: (T, T) -> bool) {
    && (forall a :: !less(a, a))
    && (forall a, b :: a == b || less(a, b) || less(b, a))
    && (forall a, b, c :: less(a, b) && less(b, c) ==> less(a, c))
  }

  lemma {:induction false} LessConnected(a: string, b: string)
    ensures !Less(a, a)
    ensures a == b || Less(a, b) || Less(b, a)
    decreases |a|
  {
    if a != "" {
      if b != "" && a[0] == b[0] {
        LessConnected(a[1..], b[1..]);
        assert a == [a[0]] + a[1..] && b == [b[0]] + b[1..];
      } else {
        LessConnected(a[1..], a[1..]);
      }
    }
  }

  lemma {:induction false} LessTransitive(a: string, b: string, c: string)
    requires Less(a, b) && Less(b, c)
    ensures Less(a, c)
    decreases |a|
  {
    if a != "" && a[0] == b[0] && b[0] == c[0] {
      LessTransitive(a[1..], b[1..], c[1..]);
    }
  }

  lemma LessIsTotal()
    ensures TotalOrder(Less)
    ensures TotalOrder(KeyLess)
  {
    forall a, b ensures !Less(a, a) && (a == b || Less(a, b) || Less(b, a)) {
      LessConnected(a, b);
    }
    forall a, b, c | Less(a, b) && Less(b, c) ensures Less(a, c) {
      LessTransitive(a, b, c);
    }
  }

  predicate IsLeast<T(==,!new)>(m: T, s: set<T>, less: (T, T) -> bool) {
    m in s && forall x :: x in s ==> x == m || less(m, x)
  }

  lemma Transits<T(!new)>(less: (T, T) -> bool, a: T, b: T, c: T)
    requires TotalOrder(less) && less(a, b) && less(b, c)
    ensures less(a, c)
  {
  }

  lemma {:induction false} LeastExists<T(!new)>(s: set<T>, less: (T, T) -> bool) returns (m: T)
    requires TotalOrder(less)
    requires s != {}
    ensures IsLeast(m, s, less)
  {
    var e :| e in s;
    m := e;
    if s != {e} {
      var least := LeastExists(s - {e}, less);
      m := if less(e, least) then e else least;
      forall x | x in s ensures x == m || less(m, x) {
        if x != e && x != least && m == e {
          Transits(less, e, least, x);
        }
      }
    }
  }

  function Least<T(==,!new)>(s: set<T>, less: (T, T) -> bool): (m: T)
    requires TotalOrder(less)
    requires s != {}
    ensures IsLeast(m, s, less)
  {
    assert exists m :: IsLeast(m, s, less) by {
      var m := LeastExists(s, less);
    }
    var m :| IsLeast(m, s, less);
    m
  }

  /** The elements of a set in increasing order: how an ordered set is walked. */
  function Sorted<T(==,!new)>(s: set<T>, less: (T, T) -> bool): (r: seq<T>)
    requires TotalOrder(less)
    ensures forall x :: x in r <==> x in s
    ensures |r| == |s|
    ensures forall i, j :: 0 <= i < j < |r| ==> less(r[i], r[j])
  {
    if s == {} then [] else
      var m := Least(s, less);
      var rest := Sorted(s - {m}, less);
      assert forall i :: 0 <= i < |rest| ==> rest[i] in rest;
      [m] + rest
  }

  function SortedKeys(s: set<Key>): (r: seq<Key>)
    ensures forall x :: x in r <==> x in s
    ensures |r| == |s|
  {
    LessIsTotal();
    Sorted(s, KeyLess)
  }

  function SortedTurns(s: set<TurnId>): (r: seq<TurnId>)
    ensures forall x :: x in r <==> x in s
    ensures |r| == |s|
  {
    LessIsTotal();
    Sorted(s, Less)
  }

  function LeastKey(s: set<Key>): (m: Key)
    requires s != {}
    ensures IsLeast(m, s, KeyLess)
  {
    LessIsTotal();
    Least(s, KeyLess)
  }

  function LeastId(s: set<string>): (m: string)
    requires s != {}
    ensures IsLeast(m, s, Less)
  {
    LessIsTotal();
    Least(s, Less)
  }

  lemma LeastIsUnique<T(!new)>(a: T, b: T, s: set<T>, less: (T, T) -> bool)
    requires TotalOrder(less) && IsLeast(a, s, less) && IsLeast(b, s, less)
    ensures a == b
  {
    if a != b {
      Transits(less, a, b, a);
    }
  }

  lemma SortedKeysFrom(s: set<Key>, m: Key)
    requires IsLeast(m, s, KeyLess)
    ensures SortedKeys(s) == [m] + SortedKeys(s - {m})
  {
    LessIsTotal();
    LeastIsUnique(m, Least(s, KeyLess), s, KeyLess);
  }

  lemma SortedTurnsFrom(s: set<TurnId>, m: TurnId)
    requires IsLeast(m, s, Less)
    ensures SortedTurns(s) == [m] + SortedTurns(s - {m})
  {
    LessIsTotal();
    LeastIsUnique(m, Least(s, Less), s, Less);
  }
}
