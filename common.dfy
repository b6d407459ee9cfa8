/** Shared vocabulary of the web front end and the lobby server: optional
    values, the outcome of a network request, user-facing notifications,
    permission tiers and two facts about duplicate-free sequences. */
module Common {

  /** A value that may be absent (`undefined` or `null` on the wire). */
  datatype Option<+T> = None | Some(value: T) {
    /** `x ?? d`: the value when present, the default otherwise. */
    function GetOr(default: T): T {
      match this
      case Some(v) => v
      case None => default
    }
  }

  /** How a network request settled: its resolved value or a rejection. */
  datatype Fetch<+T> = Resolved(value: T) | Rejected(reason: string)

  /** The severity of a notification. */
  datatype FlashLevel = Success | Info | Warning | Error

  /** A flash record as a page stores it in the shared flash list. */
  datatype Flash = Flash(heading: string, level: FlashLevel, message: string, closable: bool)

  /** A `(level, message)` pair handed to the notification sink. */
  datatype Notice = Notice(level: FlashLevel, message: string)

  /** The ordered permission tiers of the signed-in user. */
  datatype PermissionLevel = Guest | User | Moderator | Admin

  /** Position of a tier in the order Guest < User < Moderator < Admin. */
  function Rank(p: PermissionLevel): nat {
    match p
    case Guest => 0
    case User => 1
    case Moderator => 2
    case Admin => 3
  }

  /** `level >= PermissionLevel.Moderator`. */
  predicate AtLeastModerator(p: PermissionLevel) {
    Rank(p) >= Rank(Moderator)
  }

  /** No element occurs twice. */
  predicate NoDuplicates<T(==)>(s: seq<T>) {
    forall i, j :: 0 <= i < j < |s| ==> s[i] != s[j]
  }

  /** `s` with every occurrence of `x` taken out, the rest in order. */
  function Without<T(==)>(s: seq<T>, x: T): (r: seq<T>)
    ensures forall i :: 0 <= i < |r| ==> r[i] in s && r[i] != x
    ensures forall i :: 0 <= i < |s| && s[i] != x ==> s[i] in r
    ensures |r| <= |s|
  {
    if s == [] then []
    else if s[0] == x then Without(s[1..], x)
    else [s[0]] + Without(s[1..], x)
  }

  /** Removing from a duplicate-free sequence keeps it duplicate-free. */
  lemma {:induction false} WithoutNoDuplicates<T>(s: seq<T>, x: T)
    requires NoDuplicates(s)
    ensures NoDuplicates(Without(s, x))
  {
    if s != [] {
      assert NoDuplicates(s[1..]) by {
        forall i, j | 0 <= i < j < |s[1..]| ensures s[1..][i] != s[1..][j] {
          assert s[1..][i] == s[i + 1] && s[1..][j] == s[j + 1];
        }
      }
      WithoutNoDuplicates(s[1..], x);
      if s[0] != x {
        assert s[0] !in s[1..];
        assert s[0] !in Without(s[1..], x);
      }
    }
  }

  /** In a duplicate-free sequence, removing a member drops exactly its one
      position and keeps the others in order. */
  lemma {:induction false} WithoutMember<T>(s: seq<T>, i: nat)
    requires NoDuplicates(s) && i < |s|
    ensures Without(s, s[i]) == s[..i] + s[i + 1..]
    ensures |Without(s, s[i])| == |s| - 1
  {
    if i == 0 {
      WithoutAbsent(s[1..], s[0]);
      assert s[1..] == s[..0] + s[1..];
    } else {
      assert NoDuplicates(s[1..]) by {
        forall a, b | 0 <= a < b < |s[1..]| ensures s[1..][a] != s[1..][b] {
          assert s[1..][a] == s[a + 1] && s[1..][b] == s[b + 1];
        }
      }
      assert s[1..][i - 1] == s[i];
      WithoutMember(s[1..], i - 1);
      assert s[0] != s[i];
      assert s[..i] == [s[0]] + s[1..][..i - 1];
      assert s[i + 1..] == s[1..][i..];
    }
  }

  /** Removing something that is not there changes nothing. */
  lemma {:induction false} WithoutAbsent<T>(s: seq<T>, x: T)
    requires x !in s
    ensures Without(s, x) == s
  {
    if s != [] {
      assert x !in s[1..];
      WithoutAbsent(s[1..], x);
    }
  }

  /** A duplicate-free sequence has as many elements as its set of values. */
  lemma {:induction false} DistinctCardinality<T>(s: seq<T>)
    requires NoDuplicates(s)
    ensures |set x | x in s| == |s|
  {
    if s != [] {
      var t := s[1..];
      assert NoDuplicates(t) by {
        forall a, b | 0 <= a < b < |t| ensures t[a] != t[b] {
          assert t[a] == s[a + 1] && t[b] == s[b + 1];
        }
      }
      DistinctCardinality(t);
      assert s[0] !in t;
      assert (set x | x in s) == (set x | x in t) + {s[0]};
    }
  }
}
