/** The order in which cookies are written to the file: by domain, then path, then name. */
module Locations {
  import opened CookieJar

  /** Go's `<` on strings; for valid UTF-8, byte order and code point order are the same. */
  predicate LexLess(a: string, b: string) {
    b != "" && (a == "" || a[0] < b[0] || (a[0] == b[0] && LexLess(a[1..], b[1..])))
  }

  lemma {:induction false} LexTransitive(a: string, b: string, c: string)
    requires LexLess(a, b) && LexLess(b, c)
    ensures LexLess(a, c)
  {
    if a != "" && a[0] == b[0] == c[0] {
      LexTransitive(a[1..], b[1..], c[1..]);
    }
  }

  lemma {:induction false} LexTotal(a: string, b: string)
    ensures !LexLess(a, a)
    ensures LexLess(a, b) || a == b || LexLess(b, a)
  {
    if a != "" {
      LexTotal(a[1..], if b == "" then b else b[1..]);
      if b != "" && a[0] == b[0] && a[1..] == b[1..] {
        assert a == [a[0]] + a[1..] && b == [b[0]] + b[1..];
      }
    }
  }

  /** Up to place `k` the texts agree; there `a` ends or has the smaller character. */
  predicate DecidesAt(a: string, b: string, k: nat) {
    k <= |a| && k < |b| && a[..k] == b[..k] && (k < |a| ==> a[k] < b[k])
  }

  /** The first place where the two texts differ decides. */
  lemma {:induction false} LexLessIff(a: string, b: string)
    ensures LexLess(a, b) <==> exists k: nat :: DecidesAt(a, b, k)
  {
    if a == "" && b != "" {
      assert DecidesAt(a, b, 0);
    } else if a != "" && b != "" {
      LexLessIff(a[1..], b[1..]);
      if a[0] < b[0] {
        assert DecidesAt(a, b, 0);
      } else if LexLess(a, b) {
        var k: nat :| DecidesAt(a[1..], b[1..], k);
        assert a[..k + 1] == [a[0]] + a[1..][..k] && b[..k + 1] == [b[0]] + b[1..][..k];
        assert DecidesAt(a, b, k + 1);
      }
      forall k: nat | DecidesAt(a, b, k) ensures LexLess(a, b) {
        if k > 0 {
          assert a[0] == a[..k][0] && b[0] == b[..k][0];
          assert a[1..][..k - 1] == a[..k][1..] && b[1..][..k - 1] == b[..k][1..];
          assert DecidesAt(a[1..], b[1..], k - 1);
        }
      }
    }
  }

  predicate Before(a: Ident, b: Ident) {
    if a.domain != b.domain then LexLess(a.domain, b.domain)
    else if a.path != b.path then LexLess(a.path, b.path)
    else LexLess(a.name, b.name)
  }

  lemma BeforeTotal(a: Ident, b: Ident)
    ensures !Before(a, a)
    ensures Before(a, b) || a == b || Before(b, a)
  {
    LexTotal(a.domain, b.domain);
    LexTotal(a.path, b.path);
    LexTotal(a.name, b.name);
  }

  lemma BeforeTransitive(a: Ident, b: Ident, c: Ident)
    requires Before(a, b) && Before(b, c)
    ensures Before(a, c)
  {
    hide LexLess;
    LexTotal(a.domain, b.domain);
    LexTotal(a.path, b.path);
    if a.domain != b.domain && b.domain != c.domain { LexTransitive(a.domain, b.domain, c.domain); }
    if a.path != b.path && b.path != c.path && LexLess(a.path, b.path) && LexLess(b.path, c.path) {
      LexTransitive(a.path, b.path, c.path);
    }
    if LexLess(a.name, b.name) && LexLess(b.name, c.name) { LexTransitive(a.name, b.name, c.name); }
  }

  predicate Ascending(ids: seq<Ident>) {
    forall i, j | 0 <= i < j < |ids| :: Before(ids[i], ids[j])
  }

  predicate Sorted(ids: seq<Ident>) {
    forall i, j | 0 <= i < j < |ids| :: !Before(ids[j], ids[i])
  }

  /** Sorted: by domain, where domains are equal by path, and where both are equal by name. */
  lemma SortedReads(ids: seq<Ident>, i: nat, j: nat)
    requires Sorted(ids) && i < j < |ids|
    ensures ids[i].domain == ids[j].domain || exists k: nat :: DecidesAt(ids[i].domain, ids[j].domain, k)
    ensures ids[i].domain == ids[j].domain ==>
              ids[i].path == ids[j].path || exists k: nat :: DecidesAt(ids[i].path, ids[j].path, k)
    ensures ids[i].domain == ids[j].domain && ids[i].path == ids[j].path ==>
              ids[i].name == ids[j].name || exists k: nat :: DecidesAt(ids[i].name, ids[j].name, k)
  {
    hide LexLess;
    LexTotal(ids[i].domain, ids[j].domain);
    LexTotal(ids[i].path, ids[j].path);
    LexTotal(ids[i].name, ids[j].name);
    LexLessIff(ids[i].domain, ids[j].domain);
    LexLessIff(ids[i].path, ids[j].path);
    LexLessIff(ids[i].name, ids[j].name);
  }

  /** What is sorted and has no repetition is strictly ascending. */
  lemma SortedAscends(ids: seq<Ident>)
    requires Sorted(ids) && forall i, j | 0 <= i < j < |ids| :: ids[i] != ids[j]
    ensures Ascending(ids)
  {
    forall i, j | 0 <= i < j < |ids| ensures Before(ids[i], ids[j]) {
      BeforeTotal(ids[i], ids[j]);
    }
  }

  /** An ascending sequence is determined by its length and members. */
  lemma {:induction false} AscendingIsUnique(a: seq<Ident>, b: seq<Ident>)
    requires Ascending(a) && Ascending(b) && |a| == |b|
    requires forall id :: id in a <==> id in b
    ensures a == b
  {
    hide Before;
    if a != [] {
      assert a[0] in b;
      FirstsAgree(a, b);
      forall id ensures id in a[1..] <==> id in b[1..] {
        BeforeTotal(id, a[0]);
        TailMember(a, id);
        TailMember(b, id);
      }
      AscendingIsUnique(a[1..], b[1..]);
      assert a == [a[0]] + a[1..] && b == [b[0]] + b[1..];
    }
  }

  lemma TailMember(a: seq<Ident>, id: Ident)
    requires Ascending(a) && a != []
    ensures id in a[1..] <==> id in a && id != a[0]
  {
    hide Before;
    BeforeTotal(id, id);
    if id in a[1..] {
      var i :| 0 <= i < |a[1..]| && a[1..][i] == id;
      assert Before(a[0], a[i + 1]);
    }
  }

  lemma FirstsAgree(a: seq<Ident>, b: seq<Ident>)
    requires Ascending(a) && Ascending(b) && a != [] && b != []
    requires a[0] in b && b[0] in a
    ensures a[0] == b[0]
  {
    hide Before;
    if a[0] != b[0] {
      var i :| 0 <= i < |b| && b[i] == a[0];
      var j :| 0 <= j < |a| && a[j] == b[0];
      BeforeTransitive(a[0], b[0], a[0]);
      BeforeTotal(a[0], a[0]);
    }
  }
}
