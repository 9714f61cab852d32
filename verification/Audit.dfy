/** The audit log (internal/domain/audit.go, internal/infrastructure/memory/audit.go, RecordAudit). */
module Audit {
  import opened Text
  import opened Wrappers

  datatype ActorType = UserActor | StaffActor

  /** What an entry says was done: a request, or an explicit break-glass access. */
  datatype Action = Requested(method_: string, path: string) | BreakGlassAccess

  function WireActor(actor: ActorType): string {
    match actor
    case UserActor => "user"
    case StaffActor => "staff"
  }

  function WireAction(action: Action): string {
    match action
    case Requested(method_, path) => method_ + " " + path
    case BreakGlassAccess => "break_glass.access"
  }

  lemma ActorNames(a: ActorType, b: ActorType)
    ensures WireActor(a) == WireActor(b) <==> a == b
    ensures WireActor(UserActor) == "user" && WireActor(StaffActor) == "staff"
  {
  }

  /** HTTP methods are tokens and hold no blank, so that entries of different actions read differently. */
  lemma ActionNames(a: Action, b: Action)
    requires a.Requested? ==> ' ' !in a.method_
    requires b.Requested? ==> ' ' !in b.method_
    ensures WireAction(a) == WireAction(b) <==> a == b
    ensures WireAction(BreakGlassAccess) == "break_glass.access"
    ensures a.Requested? ==> WireAction(a) == a.method_ + " " + a.path
  {
    var x, y := WireAction(a), WireAction(b);
    assert a.Requested? ==> x[|a.method_|] == ' ';
    assert b.Requested? ==> y[|b.method_|] == ' ';
    if a.Requested? && b.Requested? && x == y {
      assert a.method_ == x[..|a.method_|] && b.method_ == y[..|b.method_|];
      assert a.path == x[|a.method_| + 1..] && b.path == y[|b.method_| + 1..];
    } else if a != b && x == y {
      assert forall i :: 0 <= i < |WireAction(BreakGlassAccess)| ==> WireAction(BreakGlassAccess)[i] != ' ';
    }
  }

  /** No timestamp stands for Go's zero time. */
  datatype AuditEntry = AuditEntry(
    id: string, orgID: string, actor: string, actorType: ActorType, isStaff: bool,
    breakGlass: bool, reason: string, action: Action, resource: string, timestamp: Option<int>)

  // ---------- RecordAudit ----------

  /** What the clock and the code generator, if wired, give one recording. */
  datatype Stamp = Stamp(now: int, code: Option<string>)

  function StampedID(stamp: Stamp, timestamp: int): string {
    match stamp.code
    case Some(code) => "audit-" + code + "-" + Itoa(timestamp)
    case None => "audit-" + Itoa(timestamp)
  }

  /** Missing identity fields are filled; everything the caller gave is kept. */
  function Filled(entry: AuditEntry, stamp: Stamp): AuditEntry {
    var timestamp := if entry.timestamp.Some? then entry.timestamp.value else stamp.now;
    entry.(timestamp := Some(timestamp), id := if entry.id == "" then StampedID(stamp, timestamp) else entry.id)
  }

  /** The entries as recorded one after the other from this position of the log. */
  function FilledAll(entries: seq<AuditEntry>, stamps: nat -> Stamp, base: nat): (r: seq<AuditEntry>)
    ensures |r| == |entries|
    ensures forall i :: 0 <= i < |r| ==> r[i] == Filled(entries[i], stamps(base + i))
  {
    seq(|entries|, i requires 0 <= i < |entries| => Filled(entries[i], stamps(base + i)))
  }

  lemma FilledAllConcat(a: seq<AuditEntry>, b: seq<AuditEntry>, stamps: nat -> Stamp, base: nat)
    ensures FilledAll(a + b, stamps, base) == FilledAll(a, stamps, base) + FilledAll(b, stamps, base + |a|)
  {
  }

  /** A recorded entry is complete, and recording it again would change nothing. */
  lemma FilledIsComplete(entry: AuditEntry, stamp: Stamp, later: Stamp)
    ensures var e := Filled(entry, stamp);
            && e.id != "" && e.timestamp.Some? && Filled(e, later) == e
            && e.(id := entry.id, timestamp := entry.timestamp) == entry
            && e.timestamp.value == (if entry.timestamp.Some? then entry.timestamp.value else stamp.now)
            && (entry.id != "" ==> e.id == entry.id)
            && (entry.id == "" && stamp.code.Some? ==> e.id == "audit-" + stamp.code.value + "-" + Itoa(e.timestamp.value))
            && (entry.id == "" && stamp.code.None? ==> e.id == "audit-" + Itoa(e.timestamp.value))
  {
  }

  // ---------- Views ----------

  /** The entries of one organization, in order. */
  function ByOrg(entries: seq<AuditEntry>, orgID: string): seq<AuditEntry> {
    if entries == [] then []
    else
      var k := |entries| - 1;
      ByOrg(entries[..k], orgID) + if entries[k].orgID == orgID then [entries[k]] else []
  }

  /** What ListByOrg returns: everything for the empty organization. */
  function Listed(entries: seq<AuditEntry>, orgID: string): seq<AuditEntry> {
    if orgID == "" then entries else ByOrg(entries, orgID)
  }

  /** A view holds every entry of its organization as often as the log does, and no other. */
  lemma {:induction false} ViewsSelect(entries: seq<AuditEntry>, orgID: string, e: AuditEntry)
    ensures multiset(ByOrg(entries, orgID))[e] == if e.orgID == orgID then multiset(entries)[e] else 0
  {
    if entries != [] {
      var k := |entries| - 1;
      ViewsSelect(entries[..k], orgID, e);
      assert entries == entries[..k] + [entries[k]];
    }
  }

  /** Later records only extend an earlier view. */
  lemma {:induction false} ViewsOnlyGrow(entries: seq<AuditEntry>, more: seq<AuditEntry>, orgID: string)
    ensures Listed(entries + more, orgID) == Listed(entries, orgID) + Listed(more, orgID)
  {
    if more == [] {
      assert entries + more == entries;
    } else {
      var k := |more| - 1;
      ViewsOnlyGrow(entries, more[..k], orgID);
      assert (entries + more)[..|entries| + k] == entries + more[..k];
      if orgID == "" {
        assert more == more[..k] + [more[k]];
      }
    }
  }

  function ViewsOf(entries: seq<AuditEntry>, orgs: seq<string>): multiset<AuditEntry> {
    if orgs == [] then multiset{}
    else ViewsOf(entries, orgs[1..]) + multiset(ByOrg(entries, orgs[0]))
  }

  predicate Distinct(orgs: seq<string>) {
    forall i, j :: 0 <= i < j < |orgs| ==> orgs[i] != orgs[j]
  }

  /** Appending one entry adds it to the views exactly if one of them is its organization's. */
  lemma {:induction false} ViewsOfSnoc(entries: seq<AuditEntry>, e: AuditEntry, orgs: seq<string>)
    requires Distinct(orgs)
    ensures ViewsOf(entries + [e], orgs) ==
            ViewsOf(entries, orgs) + (if e.orgID in orgs then multiset{e} else multiset{})
  {
    assert (entries + [e])[..|entries|] == entries;
    if orgs != [] {
      ViewsOfSnoc(entries, e, orgs[1..]);
      assert orgs == [orgs[0]] + orgs[1..];
      if e.orgID == orgs[0] {
        forall j | 0 <= j < |orgs[1..]| ensures orgs[1..][j] != orgs[0] {
          assert orgs[1..][j] == orgs[j + 1];
        }
      }
    }
  }

  lemma {:induction false} ViewsOfNothing(orgs: seq<string>)
    ensures ViewsOf([], orgs) == multiset{}
  {
    if orgs != [] {
      ViewsOfNothing(orgs[1..]);
    }
  }

  /** Every entry is in exactly one view of a duplicate-free list of the organizations that occur. */
  lemma {:induction false} ViewsPartition(entries: seq<AuditEntry>, orgs: seq<string>)
    requires Distinct(orgs)
    requires forall i :: 0 <= i < |entries| ==> entries[i].orgID in orgs
    ensures ViewsOf(entries, orgs) == multiset(entries)
  {
    if entries == [] {
      ViewsOfNothing(orgs);
    } else {
      var k := |entries| - 1;
      ViewsPartition(entries[..k], orgs);
      assert entries == entries[..k] + [entries[k]];
      ViewsOfSnoc(entries[..k], entries[k], orgs);
    }
  }

  /**
    The views over the occurring non-empty organizations, plus the entries without
    one (which no view but the full list shows), partition the log.
   */
  lemma ListsPartition(entries: seq<AuditEntry>, orgs: seq<string>)
    requires Distinct(orgs) && "" !in orgs
    requires forall i :: 0 <= i < |entries| && entries[i].orgID != "" ==> entries[i].orgID in orgs
    ensures ViewsOf(entries, orgs) + multiset(ByOrg(entries, "")) == multiset(Listed(entries, ""))
  {
    var all := [""] + orgs;
    ViewsPartition(entries, all);
    assert all[1..] == orgs;
  }

  // ---------- The store ----------

  class AuditStore {
    var entries: seq<AuditEntry>

    constructor ()
      ensures entries == []
    {
      entries := [];
    }

    method Record(entry: AuditEntry)
      modifies this
      ensures entries == old(entries) + [entry]
    {
      entries := entries + [entry];
    }

    method ListByOrg(orgID: string) returns (result: seq<AuditEntry>)
      ensures result == Listed(entries, orgID)
    {
      result := [];
      for i := 0 to |entries|
        invariant result == Listed(entries[..i], orgID)
      {
        assert entries[..i + 1][..i] == entries[..i];
        var e := entries[i];
        if orgID == "" || e.orgID == orgID {
          result := result + [e];
        }
      }
      assert entries[..|entries|] == entries;
    }

    method All() returns (result: seq<AuditEntry>)
      ensures result == entries
    {
      result := entries;
    }

    /** RecordAudit: fill what is missing, then append. */
    method RecordAudit(draft: AuditEntry, stamp: Stamp)
      modifies this
      ensures entries == old(entries) + [Filled(draft, stamp)]
    {
      var entry := draft;
      if entry.timestamp.None? {
        entry := entry.(timestamp := Some(stamp.now));
      }
      if entry.id == "" {
        if stamp.code.Some? {
          entry := entry.(id := "audit-" + stamp.code.value + "-" + Itoa(entry.timestamp.value));
        } else {
          entry := entry.(id := "audit-" + Itoa(entry.timestamp.value));
        }
      }
      Record(entry);
    }
  }
}
