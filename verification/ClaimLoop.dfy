/** The loop that claims idle pending entries of a consumer group, page by page. */
module ClaimLoop {
  import opened Domain

  /** How the broker answers one call: with a page, with an early nil, or with an error. */
  datatype Reply = Page | Nil | Broken

  datatype Claimed = Claimed(entries: seq<nat>) | ClaimFailed

  predicate IsAscending(s: seq<nat>) {
    forall i, j :: 0 <= i < j < |s| ==> s[i] < s[j]
  }

  function Ahead(pel: seq<nat>, from: nat): set<nat> {
    set k | k in pel && k >= from
  }

  /** The eligible entries of an ascending list from a position on. */
  function Eligible(pel: seq<nat>, idle: set<nat>, from: nat): set<nat> {
    set k | k in pel && k in idle && k >= from
  }

  /** The entries of the list between two positions. */
  function Scanned(pel: seq<nat>, from: nat, to: nat): set<nat> {
    set k | k in pel && from <= k < to
  }

  lemma {:induction false} ScannedSize(pel: seq<nat>, i: nat, j: nat)
    requires IsAscending(pel) && i <= j < |pel|
    ensures |Scanned(pel, pel[i], pel[j])| == j - i
    decreases j - i
  {
    if i == j {
      assert Scanned(pel, pel[i], pel[j]) == {};
    } else {
      ScannedSize(pel, i, j - 1);
      assert Scanned(pel, pel[i], pel[j]) == Scanned(pel, pel[i], pel[j - 1]) + {pel[j - 1]};
    }
  }

  lemma ProperSubsetIsSmaller(a: set<nat>, b: set<nat>)
    requires a < b
    ensures |a| < |b|
  {
    var x :| x in b && x !in a;
    assert |b - a| > 0 && b == a + (b - a);
  }

  lemma AscendingConcat(a: seq<nat>, b: seq<nat>)
    requires IsAscending(a) && IsAscending(b)
    requires forall x, y :: x in a && y in b ==> x < y
    ensures IsAscending(a + b)
  {
    forall i, j | 0 <= i < j < |a + b|
      ensures (a + b)[i] < (a + b)[j]
    {
      if i < |a| <= j {
        assert a[i] in a && b[j - |a|] in b;
      }
    }
  }

  /** The pending-entries list of a group. Entry ids are positive; 0 stands for "0-0", the start
      of a scan and the cursor that ends it. */
  class Group {
    const pel: seq<nat>
    const malformed: set<nat>
    var idle: set<nat>

    predicate Valid() {
      IsAscending(pel) && 0 !in pel
    }

    constructor (pel: seq<nat>, malformed: set<nat>, idle: set<nat>)
      requires IsAscending(pel) && 0 !in pel
      ensures Valid() && this.pel == pel && this.malformed == malformed && this.idle == idle
    {
      this.pel, this.malformed, this.idle := pel, malformed, idle;
    }

    /** XAUTOCLAIM: scans at most ten entries per requested one from `start`, takes over those idle
        for long enough, which resets their idle time, and says where to go on, or 0 at the end. */
    method XAutoClaim(start: nat, count: nat) returns (page: seq<nat>, next: nat)
      requires Valid() && count > 0
      modifies this`idle
      ensures |page| <= count && IsAscending(page)
      ensures forall k :: k in page ==> k in Eligible(pel, old(idle), start)
      ensures idle == old(idle) - (set k | k in page)
      ensures next == 0 || (next in pel && next > start)
      ensures next != 0 ==> (forall k :: k in page ==> k < next) && exists k :: k in pel && start <= k < next
      ensures forall k :: k in Eligible(pel, idle, start) ==> next != 0 && k >= next
      ensures next != 0 ==> |Scanned(pel, start, next)| <= 10 * count
      ensures next != 0 && |page| < count ==> |Scanned(pel, start, next)| == 10 * count
    {
      var attempts := 10 * count;
      var i := 0;
      while i < |pel| && pel[i] < start
        invariant 0 <= i <= |pel|
        invariant forall j :: 0 <= j < i ==> pel[j] < start
      {
        i := i + 1;
      }
      page := [];
      ghost var first := i;
      while i < |pel| && attempts > 0 && |page| < count
        invariant 0 <= i <= |pel| && 0 <= attempts <= 10 * count && |page| <= count
        invariant first <= i && attempts == 10 * count - (i - first)
        invariant attempts == 10 * count ==> page == []
        invariant attempts < 10 * count ==> i > 0 && pel[i - 1] >= start
        invariant forall j :: i <= j < |pel| ==> pel[j] >= start
        invariant IsAscending(page)
        invariant forall k :: k in page ==> k in Eligible(pel, old(idle), start)
        invariant forall k, j :: k in page && i <= j < |pel| ==> k < pel[j]
        invariant idle == old(idle) - (set k | k in page)
        invariant forall j :: 0 <= j < i && pel[j] in idle ==> pel[j] < start
      {
        if pel[i] in idle {
          AscendingConcat(page, [pel[i]]);
          page := page + [pel[i]];
          idle := idle - {pel[i]};
        }
        attempts := attempts - 1;
        i := i + 1;
      }
      next := if i < |pel| then pel[i] else 0;
      if i < |pel| {
        ScannedSize(pel, first, i);
        assert Scanned(pel, start, next) == Scanned(pel, pel[first], pel[i]);
      }
      assert i < |pel| ==> pel[i - 1] in pel && start <= pel[i - 1] < pel[i];
    }

    /** Claims up to `count` idle entries. A nil reply ends the claim early with what there is;
        a broken reply or a malformed entry fails it, although entries were taken over. */
    method ClaimPending(count: int, replies: nat -> Reply) returns (claimed: Claimed)
      requires Valid()
      modifies this`idle
      ensures count <= 0 ==> claimed.ClaimFailed? && idle == old(idle)
      ensures claimed.Claimed? ==>
                && |claimed.entries| <= count && IsAscending(claimed.entries)
                && (forall k :: k in claimed.entries ==> k in Eligible(pel, old(idle), 0) && k !in malformed)
                && idle == old(idle) - (set k | k in claimed.entries)
      ensures claimed.Claimed? && |claimed.entries| < count && (forall i :: replies(i) != Nil) ==>
                forall k :: k in Eligible(pel, old(idle), 0) ==> k in claimed.entries
      ensures claimed.ClaimFailed? ==> idle <= old(idle)
      ensures count > 0 && (forall i :: replies(i) != Broken) && malformed !! Eligible(pel, old(idle), 0) ==>
                claimed.Claimed?
    {
      if count <= 0 {
        return ClaimFailed;
      }
      var entries: seq<nat> := [];
      var start := 0;
      var call := 0;
      while |entries| < count
        invariant |entries| <= count && IsAscending(entries)
        invariant forall k :: k in entries ==> k < start || start == 0
        invariant start == 0 ==> entries == []
        invariant forall k :: k in entries ==> k in Eligible(pel, old(idle), 0) && k !in malformed
        invariant idle == old(idle) - (set k | k in entries)
        invariant forall k :: k in Eligible(pel, idle, 0) ==> k >= start
        invariant start == 0 || start in pel
        decreases |Ahead(pel, start)|
      {
        if replies(call) == Nil {
          return Claimed(entries);
        }
        if replies(call) == Broken {
          return ClaimFailed;
        }
        ghost var before := idle;
        var page, next := XAutoClaim(start, count - |entries|);
        if exists k :: k in page && k in malformed {
          return ClaimFailed;
        }
        AscendingConcat(entries, page);
        entries := entries + page;
        forall k | k in Eligible(pel, idle, 0)
          ensures next != 0 && k >= next
        {
          assert k in Eligible(pel, before, 0);
          assert k in Eligible(pel, idle, start);
        }
        if next == 0 || next == start {
          assert Eligible(pel, idle, 0) == {};
          forall k | k in Eligible(pel, old(idle), 0)
            ensures k in entries
          {
            assert k !in Eligible(pel, idle, 0);
          }
          break;
        }
        ghost var passed :| passed in pel && start <= passed < next;
        assert passed in Ahead(pel, start) && passed !in Ahead(pel, next);
        ProperSubsetIsSmaller(Ahead(pel, next), Ahead(pel, start));
        start := next;
        call := call + 1;
      }
      claimed := Claimed(entries);
    }
  }
}
