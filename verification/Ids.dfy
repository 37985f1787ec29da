/** Identifiers as the database and the wire format compare them, and the order
    in which SQLite returns rows under `ORDER BY` on a text column. */
module Ids {

  datatype Option<+T> = None | Some(value: T)

  type Id = string

  /** The white space that Go's strings.TrimSpace removes. */
  predicate IsSpace(c: char) {
    || '\t' <= c <= '\r' || c == ' ' || c == '\U{85}' || c == '\U{A0}' || c == '\U{1680}'
    || '\U{2000}' <= c <= '\U{200A}' || c == '\U{2028}' || c == '\U{2029}'
    || c == '\U{202F}' || c == '\U{205F}' || c == '\U{3000}'
  }

  predicate Trimmed(s: string) {
    s == "" || (!IsSpace(s[0]) && !IsSpace(s[|s| - 1]))
  }

  predicate ValidId(id: string) {
    id != "" && |id| <= 128 && Trimmed(id)
  }

  predicate IsHex(c: char) {
    '0' <= c <= '9' || 'a' <= c <= 'f' || 'A' <= c <= 'F'
  }

  /** A 32-byte random value in hexadecimal: what randomToken draws. */
  predicate IsToken(s: string) {
    |s| == 64 && forall i :: 0 <= i < |s| ==> IsHex(s[i])
  }

  lemma TokensAreValidIds(s: string)
    requires IsToken(s)
    ensures ValidId(s)
  {
    assert IsHex(s[0]) && IsHex(s[63]);
  }

  /** Binary collation: compare code points from the left. */
  predicate Less(a: string, b: string) {
    b != "" && (a == "" || a[0] < b[0] || (a[0] == b[0] && Less(a[1..], b[1..])))
  }

  lemma {:induction false} LessTotal(a: string, b: string)
    ensures Less(a, b) || a == b || Less(b, a)
    ensures !(Less(a, b) && Less(b, a))
    ensures !Less(a, a)
  {
    if a != "" {
      if b != "" {
        LessTotal(a[1..], b[1..]);
        assert a == [a[0]] + a[1..] && b == [b[0]] + b[1..];
      }
      LessTotal(a[1..], a[1..]);
    }
  }

  lemma {:induction false} LessTransitive(a: string, b: string, c: string)
    requires Less(a, b) && Less(b, c)
    ensures Less(a, c)
  {
    if a != "" && a[0] == b[0] && b[0] == c[0] {
      LessTransitive(a[1..], b[1..], c[1..]);
    }
  }

  ghost predicate Increasing(s: seq<Id>) {
    forall i, j :: 0 <= i < j < |s| ==> Less(s[i], s[j])
  }

  lemma FirstIsMember(s: seq<Id>)
    ensures s == [] || s[0] in s
  {}

  /** An increasing list is determined by its members. */
  lemma {:induction false} IncreasingIsUnique(a: seq<Id>, b: seq<Id>)
    requires Increasing(a) && Increasing(b)
    requires forall x :: x in a <==> x in b
    ensures a == b
  {
    FirstIsMember(b);
    if a != [] {
      assert a[0] in a && a[0] in b;
      var i :| 0 <= i < |b| && b[i] == a[0];
      assert b[0] in b && b[0] in a;
      var j :| 0 <= j < |a| && a[j] == b[0];
      LessTotal(a[0], b[0]);
      assert a[0] == b[0];
      LessTotal(a[0], a[0]);
      forall x ensures x in a[1..] <==> x in b[1..] {
        assert x in a <==> x == a[0] || x in a[1..];
        assert x in b <==> x == b[0] || x in b[1..];
        assert a[0] !in a[1..] && b[0] !in b[1..];
      }
      IncreasingIsUnique(a[1..], b[1..]);
      assert a == [a[0]] + a[1..] && b == [b[0]] + b[1..];
    }
  }

  lemma {:induction false} LeastExists(s: set<Id>) returns (m: Id)
    requires s != {}
    ensures m in s && forall x :: x in s && x != m ==> Less(m, x)
  {
    m :| m in s;
    if s != {m} {
      var l := LeastExists(s - {m});
      LessTotal(l, m);
      if Less(l, m) {
        forall x | x in s && x != l ensures Less(l, x) {}
        m := l;
      } else {
        forall x | x in s && x != m ensures Less(m, x) {
          if x != l { LessTransitive(m, l, x); }
        }
      }
    }
  }

  /** The members of `s` in increasing order. */
  ghost function Sorted(s: set<Id>): (r: seq<Id>)
    ensures Increasing(r)
    ensures forall x :: x in r <==> x in s
  {
    if s == {} then [] else
      assert exists m :: m in s && forall x :: x in s && x != m ==> Less(m, x) by { var m := LeastExists(s); }
      var m :| m in s && forall x :: x in s && x != m ==> Less(m, x);
      [m] + Sorted(s - {m})
  }
}
