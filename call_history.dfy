/** The call-history list (`src/pages/CallHistory.tsx`): the calls shown
    are those of the full list that pass the status filter and then the
    search, a case-insensitive substring match on provider, phone number
    and patient name. Lowercasing is ASCII lowercasing. */
module CallHistoryFilter {
  import opened Js

  datatype CallEntry = CallEntry(
    id: string,
    phoneNumber: string,
    provider: string,
    status: string,
    duration: string,
    timestamp: string,
    benefitsId: Option<string>,
    patientName: string)

  // ---------------------------------------------------------------------
  // `Array.prototype.filter` and subsequences

  /** `xs.filter(p)` */
  function Keep<T>(xs: seq<T>, p: T -> bool): (r: seq<T>)
    ensures |r| <= |xs|
    ensures forall i :: 0 <= i < |r| ==> p(r[i])
  {
    if xs == [] then [] else (if p(xs[0]) then [xs[0]] else []) + Keep(xs[1..], p)
  }

  /** `a` is `b` with some elements left out, in the same order. */
  predicate IsSubsequence<T(==)>(a: seq<T>, b: seq<T>)
    decreases |b|
  {
    a == [] || (b != [] && ((a[0] == b[0] && IsSubsequence(a[1..], b[1..])) || IsSubsequence(a, b[1..])))
  }

  lemma {:induction false} KeepIsSubsequence<T>(xs: seq<T>, p: T -> bool)
    ensures IsSubsequence(Keep(xs, p), xs)
    decreases |xs|
  {
    if xs != [] {
      KeepIsSubsequence(xs[1..], p);
      if p(xs[0]) {
        assert Keep(xs, p) == [xs[0]] + Keep(xs[1..], p);
        assert Keep(xs, p)[1..] == Keep(xs[1..], p);
      } else {
        assert Keep(xs, p) == Keep(xs[1..], p);
      }
    }
  }

  /** An element is kept exactly when it is in the list and passes. */
  lemma {:induction false} KeepMembership<T>(xs: seq<T>, p: T -> bool, x: T)
    ensures x in Keep(xs, p) <==> x in xs && p(x)
    decreases |xs|
  {
    if xs != [] {
      KeepMembership(xs[1..], p, x);
      assert xs == [xs[0]] + xs[1..];
    }
  }

  /** Filtering a list whose elements all pass keeps it whole. */
  lemma {:induction false} KeepAllPass<T>(xs: seq<T>, p: T -> bool)
    requires forall i :: 0 <= i < |xs| ==> p(xs[i])
    ensures Keep(xs, p) == xs
    decreases |xs|
  {
    if xs != [] {
      KeepAllPass(xs[1..], p);
      assert xs == [xs[0]] + xs[1..];
    }
  }

  /** `filter` acts element by element, in order: filtering a
      concatenation filters each part and concatenates the results, and a
      single element is kept exactly when it passes. With `Keep([], p) ==
      []` this fixes the result, repeated elements included. */
  lemma {:induction false} KeepConcat<T>(a: seq<T>, b: seq<T>, p: T -> bool)
    ensures Keep(a + b, p) == Keep(a, p) + Keep(b, p)
    ensures forall x :: Keep([x], p) == if p(x) then [x] else []
    decreases |a|
  {
    forall x
      ensures Keep([x], p) == if p(x) then [x] else []
    {
      assert [x][1..] == [];
    }
    if |a| == 0 {
      assert a + b == b;
    } else {
      assert (a + b)[0] == a[0] && (a + b)[1..] == a[1..] + b;
      KeepConcat(a[1..], b, p);
    }
  }

  // ---------------------------------------------------------------------
  // Lowercasing and substring search

  function LowerChar(c: char): char
  {
    if 'A' <= c <= 'Z' then (c as int + 32) as char else c
  }

  /** `s.toLowerCase()` on ASCII letters. */
  function Lower(s: string): (r: string)
    ensures |r| == |s|
    ensures forall i :: 0 <= i < |s| ==> r[i] == LowerChar(s[i])
  {
    seq(|s|, i requires 0 <= i < |s| => LowerChar(s[i]))
  }

  /** `s.includes(sub)` */
  function Includes(s: string, sub: string): bool
  {
    (|sub| <= |s| && s[..|sub|] == sub) || (|s| > 0 && Includes(s[1..], sub))
  }

  /** `sub` occurs in `s` starting at position `k`. */
  predicate OccursAt(s: string, sub: string, k: int)
  {
    0 <= k <= |s| - |sub| && s[k..k + |sub|] == sub
  }

  /** `s.includes(sub)` holds exactly when `sub` occurs in `s` at some
      position. */
  lemma {:induction false} IncludesSpec(s: string, sub: string)
    ensures Includes(s, sub) <==> exists k :: OccursAt(s, sub, k)
    decreases |s|
  {
    if |s| > 0 {
      IncludesSpec(s[1..], sub);
      if |sub| <= |s| && s[..|sub|] == sub {
        assert s[0..|sub|] == s[..|sub|];
        assert OccursAt(s, sub, 0);
      }
      if Includes(s[1..], sub) {
        var k :| OccursAt(s[1..], sub, k);
        assert s[1..][k..k + |sub|] == s[k + 1..k + 1 + |sub|];
        assert OccursAt(s, sub, k + 1);
      }
      if exists k :: OccursAt(s, sub, k) {
        var k :| OccursAt(s, sub, k);
        if k > 0 {
          assert s[1..][k - 1..k - 1 + |sub|] == s[k..k + |sub|];
          assert OccursAt(s[1..], sub, k - 1);
        } else {
          assert s[0..|sub|] == s[..|sub|];
        }
      }
    } else {
      if Includes(s, sub) {
        assert OccursAt(s, sub, 0);
      }
      if exists k :: OccursAt(s, sub, k) {
        var k :| OccursAt(s, sub, k);
        assert k == 0 && sub == [];
        assert s[..|sub|] == sub;
      }
    }
  }

  // ---------------------------------------------------------------------
  // filteredCalls

  /** The first `.filter`: the status filter `'all'` lets every call pass. */
  predicate PassesStatus(c: CallEntry, statusFilter: string)
  {
    statusFilter == "all" || c.status == statusFilter
  }

  /** The second `.filter`: an empty term lets every call pass. */
  predicate PassesSearch(c: CallEntry, term: string)
  {
    term == "" ||
      var t := Lower(term);
      Includes(Lower(c.provider), t) || Includes(Lower(c.phoneNumber), t) || Includes(Lower(c.patientName), t)
  }

  function FilteredCalls(calls: seq<CallEntry>, statusFilter: string, term: string): seq<CallEntry>
  {
    Keep(Keep(calls, c => PassesStatus(c, statusFilter)), c => PassesSearch(c, term))
  }

  /** The shown calls are the full list with some calls left out, in the
      original order. */
  lemma FilteredIsSubsequence(calls: seq<CallEntry>, statusFilter: string, term: string)
    ensures IsSubsequence(FilteredCalls(calls, statusFilter, term), calls)
  {
    var byStatus := Keep(calls, c => PassesStatus(c, statusFilter));
    KeepIsSubsequence(calls, c => PassesStatus(c, statusFilter));
    KeepIsSubsequence(byStatus, c => PassesSearch(c, term));
    SubsequenceTransitive(FilteredCalls(calls, statusFilter, term), byStatus, calls);
  }

  /** The shown list is built call by call, in order: the calls shown for
      a concatenation are those shown for each part, concatenated, and a
      single call is shown once exactly when it passes both filters. So a
      call that appears twice and passes is shown twice. */
  lemma FilteredConcat(a: seq<CallEntry>, b: seq<CallEntry>, statusFilter: string, term: string)
    ensures FilteredCalls(a + b, statusFilter, term) ==
              FilteredCalls(a, statusFilter, term) + FilteredCalls(b, statusFilter, term)
    ensures forall c :: FilteredCalls([c], statusFilter, term) ==
              if PassesStatus(c, statusFilter) && PassesSearch(c, term) then [c] else []
  {
    var ps := (c: CallEntry) => PassesStatus(c, statusFilter);
    var pt := (c: CallEntry) => PassesSearch(c, term);
    KeepConcat(a, b, ps);
    KeepConcat(Keep(a, ps), Keep(b, ps), pt);
    KeepConcat([], [], pt);
  }

  /** "Showing X of Y calls": X never exceeds Y. */
  lemma ShownCountAtMostTotal(calls: seq<CallEntry>, statusFilter: string, term: string)
    ensures |FilteredCalls(calls, statusFilter, term)| <= |calls|
  {
    FilteredIsSubsequence(calls, statusFilter, term);
  }

  lemma {:induction false} SubsequenceTransitive<T>(a: seq<T>, b: seq<T>, c: seq<T>)
    requires IsSubsequence(a, b) && IsSubsequence(b, c)
    ensures IsSubsequence(a, c)
    decreases |c|
  {
    if a != [] {
      assert b != [] && c != [];
      if b[0] == c[0] && IsSubsequence(b[1..], c[1..]) {
        if a[0] == b[0] && IsSubsequence(a[1..], b[1..]) {
          SubsequenceTransitive(a[1..], b[1..], c[1..]);
        } else {
          SubsequenceTransitive(a, b[1..], c[1..]);
        }
      } else {
        SubsequenceTransitive(a, b, c[1..]);
      }
    }
  }

  /** Status `'all'` with an empty search shows every call. */
  lemma FilteredShowsAll(calls: seq<CallEntry>)
    ensures FilteredCalls(calls, "all", "") == calls
  {
    KeepAllPass(calls, c => PassesStatus(c, "all"));
    KeepAllPass(calls, c => PassesSearch(c, ""));
  }

  /** A call is shown exactly when it is in the list, passes the status
      filter, and (for a non-empty term) the lowercased term occurs in its
      lowercased provider, phone number or patient name. */
  lemma FilteredMembership(calls: seq<CallEntry>, statusFilter: string, term: string, c: CallEntry)
    ensures c in FilteredCalls(calls, statusFilter, term) <==>
              && c in calls
              && (statusFilter == "all" || c.status == statusFilter)
              && (term == "" ||
                   var t := Lower(term);
                   (exists k :: OccursAt(Lower(c.provider), t, k)) ||
                   (exists k :: OccursAt(Lower(c.phoneNumber), t, k)) ||
                   (exists k :: OccursAt(Lower(c.patientName), t, k)))
  {
    var byStatus := Keep(calls, c => PassesStatus(c, statusFilter));
    KeepMembership(calls, c => PassesStatus(c, statusFilter), c);
    KeepMembership(byStatus, c => PassesSearch(c, term), c);
    var t := Lower(term);
    IncludesSpec(Lower(c.provider), t);
    IncludesSpec(Lower(c.phoneNumber), t);
    IncludesSpec(Lower(c.patientName), t);
  }

  /** With a status other than `'all'`, every shown call has that status. */
  lemma FilteredHasStatus(calls: seq<CallEntry>, statusFilter: string, term: string)
    requires statusFilter != "all"
    ensures forall i :: 0 <= i < |FilteredCalls(calls, statusFilter, term)| ==>
              FilteredCalls(calls, statusFilter, term)[i].status == statusFilter
  {
    var r := FilteredCalls(calls, statusFilter, term);
    forall i | 0 <= i < |r|
      ensures r[i].status == statusFilter
    {
      FilteredMembership(calls, statusFilter, term, r[i]);
    }
  }

  /** Filtering the shown list again with the same settings changes
      nothing. */
  lemma FilteredIdempotent(calls: seq<CallEntry>, statusFilter: string, term: string)
    ensures FilteredCalls(FilteredCalls(calls, statusFilter, term), statusFilter, term) ==
              FilteredCalls(calls, statusFilter, term)
  {
    var r := FilteredCalls(calls, statusFilter, term);
    forall i | 0 <= i < |r|
      ensures PassesStatus(r[i], statusFilter) && PassesSearch(r[i], term)
    {
      var byStatus := Keep(calls, c => PassesStatus(c, statusFilter));
      KeepMembership(calls, c => PassesStatus(c, statusFilter), r[i]);
      KeepMembership(byStatus, c => PassesSearch(c, term), r[i]);
    }
    KeepAllPass(r, c => PassesStatus(c, statusFilter));
    KeepAllPass(r, c => PassesSearch(c, term));
  }
}
