/**
 * Retention pruning of `deleteOldBackups`: which entries of the backup
 * folder's listing are deleted.
 *
 * The last entry of the listing is dropped; the others are the candidates.
 * When there are more candidates than `maxBackups`, `maxBackups` rounds each
 * take the newest remaining candidate (the first one on ties) off the list,
 * and whatever is left is deleted.
 */
module Retention {
  import opened Host

  /** `k` is where the inner scan of `deleteOldBackups` stops: a newest entry of `s`,
      and no entry before it is as new. */
  predicate IsNewest(s: seq<Entry>, k: nat)
  {
    k < |s| &&
    (forall j :: 0 <= j < |s| ==> s[j].lastModified <= s[k].lastModified) &&
    (forall j :: 0 <= j < k ==> s[j].lastModified < s[k].lastModified)
  }

  /** The index the scan finds, defined as the scan over a growing prefix. */
  function NewestIndex(s: seq<Entry>): (k: nat)
    requires |s| > 0
    ensures k < |s|
  {
    if |s| == 1 then 0
    else
      var best := NewestIndex(s[..|s| - 1]);
      if s[|s| - 1].lastModified > s[best].lastModified then |s| - 1 else best
  }

  /** The growing-prefix scan ends on the first newest entry. */
  lemma {:induction false} NewestIndexIsNewest(s: seq<Entry>)
    requires |s| > 0
    ensures IsNewest(s, NewestIndex(s))
    decreases |s|
  {
    if |s| > 1 {
      var init := s[..|s| - 1];
      NewestIndexIsNewest(init);
      assert forall j :: 0 <= j < |init| ==> init[j] == s[j];
    }
  }

  function RemoveAt(s: seq<Entry>, i: nat): (r: seq<Entry>)
    requires i < |s|
    ensures |r| == |s| - 1
  {
    s[..i] + s[i + 1..]
  }

  /** The list after `rounds` rounds of removing the newest entry. */
  function Remaining(s: seq<Entry>, rounds: nat): (r: seq<Entry>)
    requires rounds <= |s|
    ensures |r| == |s| - rounds
  {
    if rounds == 0 then s
    else
      var before := Remaining(s, rounds - 1);
      RemoveAt(before, NewestIndex(before))
  }

  /** The entries those rounds took off the list, in the order taken. */
  function Kept(s: seq<Entry>, rounds: nat): (r: seq<Entry>)
    requires rounds <= |s|
    ensures |r| == rounds
  {
    if rounds == 0 then []
    else
      var before := Remaining(s, rounds - 1);
      Kept(s, rounds - 1) + [before[NewestIndex(before)]]
  }

  /** The candidates: every entry of the listing but the last one. */
  function Candidates(listing: seq<Entry>): seq<Entry>
    requires |listing| > 0
  {
    listing[..|listing| - 1]
  }

  /** How many selection rounds run: the loop `for i < maxBackups` never
      runs for a non-positive maximum. */
  function Rounds(maxBackups: int): nat
  {
    if maxBackups > 0 then maxBackups else 0
  }

  /** The entries `deleteOldBackups` deletes, in the order it deletes them.
      A missing listing (a null array) and an empty one (an array of size -1)
      both raise an exception that is caught before anything is deleted. */
  function ToDelete(listing: Option<seq<Entry>>, maxBackups: int): (r: seq<Entry>)
    ensures listing.None? || listing == Some([]) ==> r == []
    ensures listing.Some? && 0 < |listing.value| && |listing.value| - 1 <= maxBackups ==> r == []
    ensures listing.Some? && 0 < |listing.value| && |listing.value| - 1 > maxBackups ==>
              |r| == |listing.value| - 1 - Rounds(maxBackups)
  {
    match listing
    case None => []
    case Some(entries) =>
      if |entries| == 0 then []
      else
        var candidates := Candidates(entries);
        if |candidates| > maxBackups then Remaining(candidates, Rounds(maxBackups)) else []
  }

  /** The candidates that survive, newest first when pruning happened. */
  function ToKeep(listing: Option<seq<Entry>>, maxBackups: int): (r: seq<Entry>)
  {
    match listing
    case None => []
    case Some(entries) =>
      if |entries| == 0 then []
      else
        var candidates := Candidates(entries);
        if |candidates| > maxBackups then Kept(candidates, Rounds(maxBackups)) else candidates
  }

  // ---------------------------------------------------------------------
  // Subsequences

  /** `a` is `b` with some entries left out, the rest in the same order. */
  predicate IsSubsequence(a: seq<Entry>, b: seq<Entry>)
    decreases |b|
  {
    if b == [] then a == []
    else (a != [] && a[0] == b[0] && IsSubsequence(a[1..], b[1..])) || IsSubsequence(a, b[1..])
  }

  lemma {:induction false} SubsequenceReflexive(a: seq<Entry>)
    ensures IsSubsequence(a, a)
    decreases |a|
  {
    if a != [] {
      SubsequenceReflexive(a[1..]);
    }
  }

  lemma {:induction false} EmptyIsSubsequence(b: seq<Entry>)
    ensures IsSubsequence([], b)
    decreases |b|
  {
    if b != [] {
      EmptyIsSubsequence(b[1..]);
    }
  }

  lemma {:induction false} SubsequenceTransitive(a: seq<Entry>, b: seq<Entry>, c: seq<Entry>)
    requires IsSubsequence(a, b) && IsSubsequence(b, c)
    ensures IsSubsequence(a, c)
    decreases |c|
  {
    if c != [] {
      if IsSubsequence(b, c[1..]) {
        SubsequenceTransitive(a, b, c[1..]);
      } else {
        assert b != [] && b[0] == c[0] && IsSubsequence(b[1..], c[1..]);
        if IsSubsequence(a, b[1..]) {
          SubsequenceTransitive(a, b[1..], c[1..]);
        } else {
          SubsequenceTransitive(a[1..], b[1..], c[1..]);
        }
      }
    }
  }

  lemma {:induction false} RemoveAtIsSubsequence(s: seq<Entry>, i: nat)
    requires i < |s|
    ensures IsSubsequence(RemoveAt(s, i), s)
    decreases i
  {
    if i == 0 {
      assert RemoveAt(s, 0) == s[1..];
      SubsequenceReflexive(s[1..]);
    } else {
      assert RemoveAt(s, i)[1..] == RemoveAt(s[1..], i - 1);
      RemoveAtIsSubsequence(s[1..], i - 1);
    }
  }

  // ---------------------------------------------------------------------
  // Entries with one timestamp

  /** The entries of `s` modified exactly at `t`, in their order in `s`. */
  function WithTimestamp(s: seq<Entry>, t: int): seq<Entry>
  {
    if s == [] then []
    else (if s[0].lastModified == t then [s[0]] else []) + WithTimestamp(s[1..], t)
  }

  lemma {:induction false} WithTimestampConcat(a: seq<Entry>, b: seq<Entry>, t: int)
    ensures WithTimestamp(a + b, t) == WithTimestamp(a, t) + WithTimestamp(b, t)
    decreases |a|
  {
    if a == [] {
      assert a + b == b;
    } else {
      var head := if a[0].lastModified == t then [a[0]] else [];
      assert (a + b)[0] == a[0] && (a + b)[1..] == a[1..] + b;
      WithTimestampConcat(a[1..], b, t);
      ConcatAssociative(head, WithTimestamp(a[1..], t), WithTimestamp(b, t));
    }
  }

  lemma ConcatAssociative(x: seq<Entry>, y: seq<Entry>, z: seq<Entry>)
    ensures x + (y + z) == (x + y) + z
  {
  }

  lemma {:induction false} WithTimestampNone(s: seq<Entry>, t: int)
    requires forall j :: 0 <= j < |s| ==> s[j].lastModified != t
    ensures WithTimestamp(s, t) == []
    decreases |s|
  {
    if s != [] {
      WithTimestampNone(s[1..], t);
    }
  }

  // ---------------------------------------------------------------------
  // What the rounds keep and what they leave

  /** Each round moves one entry from the list to the kept ones. */
  lemma {:induction false} RoundsPartition(s: seq<Entry>, rounds: nat)
    requires rounds <= |s|
    ensures multiset(Kept(s, rounds)) + multiset(Remaining(s, rounds)) == multiset(s)
  {
    if rounds == 0 {
      assert Kept(s, 0) == [] && Remaining(s, 0) == s;
    } else {
      var done := rounds - 1;
      RoundsPartition(s, done);
      RoundStep(s, done);
    }
  }

  /** One more round keeps the partition. */
  lemma RoundStep(s: seq<Entry>, done: nat)
    requires done < |s|
    requires multiset(Kept(s, done)) + multiset(Remaining(s, done)) == multiset(s)
    ensures multiset(Kept(s, done + 1)) + multiset(Remaining(s, done + 1)) == multiset(s)
  {
    var before := Remaining(s, done);
    PartitionStep(Kept(s, done), before, NewestIndex(before));
  }

  /** Moving one entry from the list to the end of the kept ones changes
      neither what there is nor how often. */
  lemma PartitionStep(kept: seq<Entry>, before: seq<Entry>, k: nat)
    requires k < |before|
    ensures multiset(kept + [before[k]]) + multiset(RemoveAt(before, k)) == multiset(kept) + multiset(before)
  {
    RemoveAtMultiset(before, k);
  }

  lemma RemoveAtMultiset(s: seq<Entry>, k: nat)
    requires k < |s|
    ensures multiset(s) == multiset(RemoveAt(s, k)) + multiset{s[k]}
  {
    assert s == s[..k] + [s[k]] + s[k + 1..];
  }

  /** What is left is the list in its original order, some entries left out. */
  lemma {:induction false} RemainingIsSubsequence(s: seq<Entry>, rounds: nat)
    requires rounds <= |s|
    ensures IsSubsequence(Remaining(s, rounds), s)
  {
    if rounds == 0 {
      SubsequenceReflexive(s);
    } else {
      RemainingIsSubsequence(s, rounds - 1);
      var before := Remaining(s, rounds - 1);
      RemoveAtIsSubsequence(before, NewestIndex(before));
      SubsequenceTransitive(Remaining(s, rounds), before, s);
    }
  }

  /** `kept` comes newest first, and none of it is older than anything in `rest`. */
  predicate NewestFirst(kept: seq<Entry>, rest: seq<Entry>)
  {
    (forall i, j :: 0 <= i < j < |kept| ==> kept[i].lastModified >= kept[j].lastModified) &&
    (forall i, j :: 0 <= i < |kept| && 0 <= j < |rest| ==> kept[i].lastModified >= rest[j].lastModified)
  }

  /** Kept entries come newest first, and none is older than any entry left. */
  lemma {:induction false} KeptAreNewest(s: seq<Entry>, rounds: nat)
    requires rounds <= |s|
    ensures NewestFirst(Kept(s, rounds), Remaining(s, rounds))
  {
    if rounds == 0 {
      assert Kept(s, 0) == [];
    } else {
      var done := rounds - 1;
      KeptAreNewest(s, done);
      KeptNewestStep(s, done);
    }
  }

  /** One more round keeps the kept entries newest first. */
  lemma KeptNewestStep(s: seq<Entry>, done: nat)
    requires done < |s|
    requires NewestFirst(Kept(s, done), Remaining(s, done))
    ensures NewestFirst(Kept(s, done + 1), Remaining(s, done + 1))
  {
    var before := Remaining(s, done);
    NewestIndexIsNewest(before);
    NewestStep(Kept(s, done), before, NewestIndex(before));
  }

  /** Moving a newest entry of the list to the end of the kept ones. */
  lemma NewestStep(kept: seq<Entry>, before: seq<Entry>, k: nat)
    requires IsNewest(before, k) && NewestFirst(kept, before)
    ensures NewestFirst(kept + [before[k]], RemoveAt(before, k))
  {
    var rest := RemoveAt(before, k);
    forall j | 0 <= j < |rest|
      ensures rest[j] == before[if j < k then j else j + 1]
    {
    }
  }

  /** One round: the entry taken is the first of its timestamp in the list. */
  lemma TiesOneRound(before: seq<Entry>, t: int)
    requires |before| > 0
    ensures WithTimestamp(before, t) ==
              WithTimestamp([before[NewestIndex(before)]], t) +
              WithTimestamp(RemoveAt(before, NewestIndex(before)), t)
  {
    NewestIndexIsNewest(before);
    TakeFirstOfTimestamp(before, NewestIndex(before), t);
  }

  /** Taking out an entry that is newer than every entry before it takes
      out the first entry of its timestamp. */
  lemma TakeFirstOfTimestamp(s: seq<Entry>, k: nat, t: int)
    requires k < |s|
    requires forall j :: 0 <= j < k ==> s[j].lastModified < s[k].lastModified
    ensures WithTimestamp(s, t) == WithTimestamp([s[k]], t) + WithTimestamp(RemoveAt(s, k), t)
  {
    var a, x, b := s[..k], s[k], s[k + 1..];
    assert s == a + ([x] + b);
    WithTimestampConcat(a, [x] + b, t);
    WithTimestampConcat([x], b, t);
    WithTimestampConcat(a, b, t);
    var wa, wx, wb := WithTimestamp(a, t), WithTimestamp([x], t), WithTimestamp(b, t);
    if x.lastModified == t {
      WithTimestampNone(a, t);
      assert wa + (wx + wb) == wx + (wa + wb);
    } else {
      assert wx == [] + WithTimestamp([], t);
      assert wa + (wx + wb) == wx + (wa + wb);
    }
  }

  /** First wins on ties: among entries with one timestamp, the kept ones
      are the first of them in list order, the ones left are the rest. */
  lemma {:induction false} TiesKeepListOrder(s: seq<Entry>, rounds: nat, t: int)
    requires rounds <= |s|
    ensures WithTimestamp(s, t) == WithTimestamp(Kept(s, rounds), t) + WithTimestamp(Remaining(s, rounds), t)
  {
    if rounds == 0 {
      assert Kept(s, 0) == [] && Remaining(s, 0) == s;
    } else {
      var done := rounds - 1;
      TiesKeepListOrder(s, done, t);
      TiesRoundStep(s, done, t);
    }
  }

  /** One more round keeps ties in list order. */
  lemma TiesRoundStep(s: seq<Entry>, done: nat, t: int)
    requires done < |s|
    requires WithTimestamp(s, t) == WithTimestamp(Kept(s, done), t) + WithTimestamp(Remaining(s, done), t)
    ensures WithTimestamp(s, t) == WithTimestamp(Kept(s, done + 1), t) + WithTimestamp(Remaining(s, done + 1), t)
  {
    TiesStep(Kept(s, done), Remaining(s, done), t);
  }

  /** One more round moves the first entry of its timestamp from the list
      to the end of the kept ones. */
  lemma TiesStep(kept: seq<Entry>, before: seq<Entry>, t: int)
    requires |before| > 0
    ensures var k := NewestIndex(before);
            WithTimestamp(kept + [before[k]], t) + WithTimestamp(RemoveAt(before, k), t) ==
            WithTimestamp(kept, t) + WithTimestamp(before, t)
  {
    var x := before[NewestIndex(before)];
    TiesOneRound(before, t);
    WithTimestampConcat(kept, [x], t);
    var wk, wx, wa := WithTimestamp(kept, t), WithTimestamp([x], t), WithTimestamp(RemoveAt(before, NewestIndex(before)), t);
    ConcatAssociative(wk, wx, wa);
  }

  // ---------------------------------------------------------------------
  // The decision on a listing

  /** Kept and deleted entries together are exactly the candidates. */
  lemma DecisionPartitionsCandidates(entries: seq<Entry>, maxBackups: int)
    requires |entries| > 0
    ensures multiset(ToKeep(Some(entries), maxBackups)) + multiset(ToDelete(Some(entries), maxBackups))
              == multiset(Candidates(entries))
  {
    var c := Candidates(entries);
    if |c| > maxBackups {
      RoundsPartition(c, Rounds(maxBackups));
    }
  }

  /** Deletion follows the listing's order; nothing deleted is newer than
      anything kept; on equal timestamps the earlier candidates are kept. */
  lemma DecisionOrder(entries: seq<Entry>, maxBackups: int, t: int)
    requires |entries| > 0
    ensures IsSubsequence(ToDelete(Some(entries), maxBackups), Candidates(entries))
    ensures forall i, j :: 0 <= i < |ToKeep(Some(entries), maxBackups)| &&
                           0 <= j < |ToDelete(Some(entries), maxBackups)| ==>
              ToKeep(Some(entries), maxBackups)[i].lastModified >=
              ToDelete(Some(entries), maxBackups)[j].lastModified
    ensures WithTimestamp(Candidates(entries), t) ==
              WithTimestamp(ToKeep(Some(entries), maxBackups), t) +
              WithTimestamp(ToDelete(Some(entries), maxBackups), t)
  {
    var c := Candidates(entries);
    if |c| > maxBackups {
      var rounds := Rounds(maxBackups);
      assert ToKeep(Some(entries), maxBackups) == Kept(c, rounds);
      assert ToDelete(Some(entries), maxBackups) == Remaining(c, rounds);
      RemainingIsSubsequence(c, rounds);
      KeptAreNewest(c, rounds);
      TiesKeepListOrder(c, rounds, t);
    } else {
      assert ToDelete(Some(entries), maxBackups) == [];
      assert WithTimestamp([], t) == [];
      EmptyIsSubsequence(c);
    }
  }

  /** When pruning happens exactly `maxBackups` candidates survive (none when
      the maximum is not positive), newest first. */
  lemma PrunedKeepsMaximum(entries: seq<Entry>, maxBackups: int)
    requires |entries| > 0 && |entries| - 1 > maxBackups
    ensures |ToKeep(Some(entries), maxBackups)| == Rounds(maxBackups)
    ensures maxBackups <= 0 ==> ToDelete(Some(entries), maxBackups) == Candidates(entries)
    ensures forall i, j :: 0 <= i < j < |ToKeep(Some(entries), maxBackups)| ==>
              ToKeep(Some(entries), maxBackups)[i].lastModified >=
              ToKeep(Some(entries), maxBackups)[j].lastModified
  {
    KeptAreNewest(Candidates(entries), Rounds(maxBackups));
  }

  /** The listing's last entry is never deleted (listing entries are distinct
      files, so it is not among the candidates). */
  lemma LastEntryNeverDeleted(entries: seq<Entry>, maxBackups: int)
    requires |entries| > 0
    requires entries[|entries| - 1] !in Candidates(entries)
    ensures entries[|entries| - 1] !in ToDelete(Some(entries), maxBackups)
  {
    DecisionPartitionsCandidates(entries, maxBackups);
    var last := entries[|entries| - 1];
    assert multiset(Candidates(entries))[last] == 0;
  }

  // ---------------------------------------------------------------------
  // The algorithm as written

  /** The inner scan: start at index 0 and move to a later entry only when it
      is strictly newer. */
  method FindNewest(backups: seq<Entry>) returns (maxModifiedIndex: nat)
    requires |backups| > 0
    ensures IsNewest(backups, maxModifiedIndex)
    ensures maxModifiedIndex == NewestIndex(backups)
  {
    maxModifiedIndex := 0;
    var maxModified := backups[0].lastModified;
    var j := 1;
    while j < |backups|
      invariant 1 <= j <= |backups|
      invariant maxModifiedIndex == NewestIndex(backups[..j])
      invariant maxModified == backups[maxModifiedIndex].lastModified
    {
      assert backups[..j + 1][..j] == backups[..j];
      if backups[j].lastModified > maxModified {
        maxModified := backups[j].lastModified;
        maxModifiedIndex := j;
      }
      j := j + 1;
    }
    assert backups[..j] == backups;
    NewestIndexIsNewest(backups);
  }

  /** The body of `deleteOldBackups` on a listing: copy all but the last
      entry into an array, and when there are more than `maxBackups`, remove
      the newest one `maxBackups` times from a list of all of them. */
  method SelectForDeletion(listing: seq<Entry>, maxBackups: int) returns (backups: seq<Entry>)
    ensures backups == ToDelete(Some(listing), maxBackups)
  {
    if |listing| == 0 {
      // new File[-1] throws; the handler deletes nothing
      return [];
    }
    var copy := CopyAllButLast(listing);
    if copy.Length > maxBackups {
      backups := RemoveNewest(copy[..], maxBackups);
    } else {
      backups := [];
    }
  }

  /** The copying loop: a new array holding every entry but the last. */
  method CopyAllButLast(listing: seq<Entry>) returns (copy: array<Entry>)
    requires |listing| > 0
    ensures fresh(copy)
    ensures copy[..] == Candidates(listing)
  {
    copy := new Entry[|listing| - 1];
    var i := 0;
    while i < |listing| - 1
      invariant 0 <= i <= |listing| - 1
      invariant copy[..i] == listing[..i]
    {
      copy[i] := listing[i];
      i := i + 1;
    }
  }

  /** The selection loop: `maxBackups` rounds, each removing the entry the
      inner scan finds. */
  method RemoveNewest(candidates: seq<Entry>, maxBackups: int) returns (backups: seq<Entry>)
    requires |candidates| > maxBackups
    ensures backups == Remaining(candidates, Rounds(maxBackups))
  {
    backups := candidates;
    var round := 0;
    while round < maxBackups
      invariant 0 <= round <= Rounds(maxBackups)
      invariant backups == Remaining(candidates, round)
    {
      var newest := FindNewest(backups);
      backups := RemoveAt(backups, newest);
      round := round + 1;
    }
    assert round == Rounds(maxBackups);
  }
}
