/**
 * The expert-profile accordion: three panels p1..p3 of which at most one is
 * open, keyboard focus that wraps around the profile buttons, capped
 * interaction logs and the statistics computed from them.
 */
module Profiles {
  import opened Wrappers
  import opened BoundedLog
  import opened Counting

  /** A profile element's state: its two classes and its `aria-expanded` attribute (`None` until first set). */
  datatype Panel = Panel(expanded: bool, collapsed: bool, ariaExpanded: Option<bool>)

  /** Exactly one of the two classes is set, and `aria-expanded` says which. */
  predicate Settled(p: Panel) {
    p.expanded != p.collapsed && p.ariaExpanded == Some(p.expanded)
  }

  /** `expandProfile`: drop 'collapsed', add 'expanded', set `aria-expanded` to true. */
  function Expand(p: Panel): (r: Panel)
    ensures Settled(r) && r.expanded
  {
    p.(collapsed := false, expanded := true, ariaExpanded := Some(true))
  }

  /** `collapseProfile`: drop 'expanded', add 'collapsed', set `aria-expanded` to false. */
  function Collapse(p: Panel): (r: Panel)
    ensures Settled(r) && !r.expanded
  {
    p.(expanded := false, collapsed := true, ariaExpanded := Some(false))
  }

  const ProfileIds: seq<string> := ["p1", "p2", "p3"]

  /**
   * The panels after the `forEach` over `ids` collapses every expanded one
   * other than `spared`.
   */
  function CloseExpanded(panels: map<string, Panel>, ids: seq<string>, spared: Option<string>): (r: map<string, Panel>)
    ensures r.Keys == panels.Keys
  {
    map id | id in panels ::
      if id in ids && Some(id) != spared && panels[id].expanded then Collapse(panels[id]) else panels[id]
  }

  /** One more id in the `forEach`: that one panel is collapsed when it is present, expanded and not spared. */
  lemma CloseExpandedSnoc(panels: map<string, Panel>, ids: seq<string>, id: string, spared: Option<string>)
    requires id !in ids
    ensures var c := CloseExpanded(panels, ids, spared);
      CloseExpanded(panels, ids + [id], spared) ==
        if Some(id) != spared && id in c && c[id].expanded then c[id := Collapse(c[id])] else c
  {
    var c := CloseExpanded(panels, ids, spared);
    var a := CloseExpanded(panels, ids + [id], spared);
    var b := if Some(id) != spared && id in c && c[id].expanded then c[id := Collapse(c[id])] else c;
    assert a.Keys == b.Keys;
    forall k | k in a ensures a[k] == b[k] {
      assert k in ids + [id] <==> k in ids || k == id;
    }
  }

  predicate AtMostOneExpanded(panels: map<string, Panel>) {
    forall a, b ::
      (a in ProfileIds && b in ProfileIds && a in panels && b in panels &&
       panels[a].expanded && panels[b].expanded) ==> a == b
  }

  /** The panels after `toggleProfile(id)` on an id whose element exists. */
  function Toggled(panels: map<string, Panel>, id: string): map<string, Panel>
    requires id in panels
  {
    var closed := CloseExpanded(panels, ProfileIds, Some(id));
    closed[id := if panels[id].expanded then Collapse(panels[id]) else Expand(panels[id])]
  }

  /**
   * Toggling flips the target, leaves every other profile closed, so at most
   * one profile is open, and touches nothing that was not an open profile.
   */
  lemma ToggledProperties(panels: map<string, Panel>, id: string)
    requires id in panels
    ensures var r := Toggled(panels, id);
      r.Keys == panels.Keys &&
      r[id].expanded == !panels[id].expanded && Settled(r[id]) &&
      (forall q :: q in ProfileIds && q != id && q in r ==> !r[q].expanded) &&
      AtMostOneExpanded(r) &&
      (forall q :: q in panels && q != id && !(q in ProfileIds && panels[q].expanded) ==> r[q] == panels[q])
  {
  }

  /** `closeAllProfiles` leaves no profile open and leaves alone the ones that were not open. */
  lemma CloseAllProperties(panels: map<string, Panel>)
    ensures var r := CloseExpanded(panels, ProfileIds, None);
      (forall q :: q in ProfileIds && q in r ==> !r[q].expanded) &&
      (forall q :: q in panels && !panels[q].expanded ==> r[q] == panels[q]) &&
      (forall q :: q in ProfileIds && q in panels && panels[q].expanded ==> Settled(r[q]))
  {
  }

  /**
   * `navigateProfiles`: `focused` is the index of the focused profile button
   * (-1 when none is), `buttons` how many there are. `None` means nothing moves.
   */
  function NavigateProfiles(buttons: nat, focused: int, direction: int): (r: Option<nat>)
    requires -1 <= focused < buttons
    ensures r.None? <==> focused == -1
    ensures r.Some? ==> r.value < buttons
    ensures r.Some? && (direction == 1 || direction == -1) ==> r.value == (focused + direction) % buttons
  {
    if focused == -1 then None
    else
      var next := focused + direction;
      var next' := if next >= buttons then 0 else next;
      Some(if next' < 0 then buttons - 1 else next')
  }

  datatype Action = ExpandAction | CollapseAction

  /** A `profileInteractions` record (the timestamp is not modelled). */
  datatype ProfileInteraction = ProfileInteraction(profileId: string, action: Action, page: string)

  /** An `emailInteractions` record (the timestamp is not modelled). */
  datatype EmailInteraction = EmailInteraction(email: string, page: string)

  const ProfileLogCap: nat := 50
  const EmailLogCap: nat := 20

  /** The profile ids of the 'expand' entries, oldest first. */
  function ExpandedIds(log: seq<ProfileInteraction>): (ids: seq<string>)
    ensures |ids| <= |log|
  {
    if log == [] then []
    else
      var earlier := ExpandedIds(log[..|log| - 1]);
      var last := log[|log| - 1];
      if last.action == ExpandAction then earlier + [last.profileId] else earlier
  }

  /** The positions of the 'expand' entries in the log. */
  ghost function ExpandPositions(log: seq<ProfileInteraction>): set<nat> {
    set i: nat | i < |log| && log[i].action == ExpandAction
  }

  /** The ids listed are exactly the profiles some 'expand' entry names. */
  lemma {:induction false} ExpandedIdsMembers(log: seq<ProfileInteraction>)
    ensures forall x :: x in ExpandedIds(log) <==>
      exists i :: 0 <= i < |log| && log[i].action == ExpandAction && log[i].profileId == x
  {
    if log != [] {
      var p := log[..|log| - 1];
      ExpandedIdsMembers(p);
      forall x | x in ExpandedIds(log)
        ensures exists i :: 0 <= i < |log| && log[i].action == ExpandAction && log[i].profileId == x
      {
        if x in ExpandedIds(p) {
          var i :| 0 <= i < |p| && p[i].action == ExpandAction && p[i].profileId == x;
          assert log[i] == p[i];
        } else {
          assert log[|log| - 1].profileId == x;
        }
      }
      forall x, i | 0 <= i < |log| && log[i].action == ExpandAction && log[i].profileId == x
        ensures x in ExpandedIds(log)
      {
        if i < |p| {
          assert p[i] == log[i];
        }
      }
    }
  }

  /** One id per 'expand' entry, so the views total is the number of such entries. */
  lemma {:induction false} ExpandedIdsCount(log: seq<ProfileInteraction>)
    ensures |ExpandedIds(log)| == |ExpandPositions(log)|
  {
    if log != [] {
      var p := log[..|log| - 1];
      ExpandedIdsCount(p);
      if log[|log| - 1].action == ExpandAction {
        assert ExpandPositions(log) == ExpandPositions(p) + {|log| - 1};
      } else {
        assert ExpandPositions(log) == ExpandPositions(p);
      }
    }
  }

  /** Filtering the log commutes with concatenation: the ids of a longer log extend those of a shorter one. */
  lemma {:induction false} ExpandedIdsAppend(a: seq<ProfileInteraction>, b: seq<ProfileInteraction>)
    ensures ExpandedIds(a + b) == ExpandedIds(a) + ExpandedIds(b)
  {
    if b != [] {
      var q := b[..|b| - 1];
      assert (a + b)[..|a + b| - 1] == a + q;
      ExpandedIdsAppend(a, q);
    } else {
      assert a + b == a;
    }
  }

  /**
   * `reduce((a, b) => counts[a] > counts[b] ? a : b)` over `keys`, as the
   * index it settles on: a key with the highest count, and the last such key.
   */
  function ReduceMaxIndex(keys: seq<string>, counts: map<string, nat>): (i: nat)
    requires |keys| > 0
    requires forall k :: k in keys ==> k in counts
    ensures i < |keys|
    ensures forall j :: 0 <= j < |keys| ==> counts[keys[j]] <= counts[keys[i]]
    ensures forall j :: i < j < |keys| ==> counts[keys[j]] < counts[keys[i]]
  {
    if |keys| == 1 then 0
    else
      var a := ReduceMaxIndex(keys[..|keys| - 1], counts);
      if counts[keys[a]] > counts[keys[|keys| - 1]] then a else |keys| - 1
  }

  /** The `reduce` loop itself: walks the keys left to right, keeping the running winner. */
  method ReduceMax(keys: seq<string>, counts: map<string, nat>) returns (best: nat)
    requires |keys| > 0
    requires forall k :: k in keys ==> k in counts
    ensures best == ReduceMaxIndex(keys, counts)
  {
    best := 0;
    for j := 1 to |keys|
      invariant best == ReduceMaxIndex(keys[..j], counts)
    {
      var next := keys[..j + 1];
      assert next[..j] == keys[..j] && next[j] == keys[j] && next[best] == keys[best];
      if !(counts[keys[best]] > counts[keys[j]]) {
        best := j;
      }
    }
    assert keys[..|keys|] == keys;
  }

  datatype ProfileStats = ProfileStats(
    totalProfileViews: nat,
    totalEmailClicks: nat,
    mostViewedProfile: Option<string>,
    profileViewCounts: map<string, nat>,
    viewOrder: seq<string>)   // the order of `Object.keys(profileViewCounts)`

  /** The statistics `getProfileStats` computes from the two logs. */
  function StatsOf(log: seq<ProfileInteraction>, emails: seq<EmailInteraction>): ProfileStats {
    var ids := ExpandedIds(log);
    var order := FirstSeen(ids);
    var counts := CountMap(ids);
    ProfileStats(|ids|, |emails|,
      if |order| == 0 then None else Some(order[ReduceMaxIndex(order, counts)]),
      counts, order)
  }

  /**
   * The views total is the number of 'expand' entries and also the sum of the
   * per-profile counts; there is no most-viewed profile exactly when there were
   * no views; otherwise it is a profile with the highest count, and no profile
   * inserted after it has as many.
   */
  lemma {:induction false} StatsProperties(log: seq<ProfileInteraction>, emails: seq<EmailInteraction>)
    ensures var st := StatsOf(log, emails);
      st.totalProfileViews == |ExpandedIds(log)| == |ExpandPositions(log)| &&
      st.totalProfileViews == SumCounts(st.viewOrder, ExpandedIds(log)) &&
      (st.mostViewedProfile.None? <==> st.totalProfileViews == 0) &&
      (st.mostViewedProfile.Some? ==>
        var best := st.mostViewedProfile.value;
        best in st.profileViewCounts &&
        (forall k :: k in st.profileViewCounts ==> st.profileViewCounts[k] <= st.profileViewCounts[best]) &&
        (exists i :: 0 <= i < |st.viewOrder| && st.viewOrder[i] == best &&
          forall j :: i < j < |st.viewOrder| ==> st.profileViewCounts[st.viewOrder[j]] < st.profileViewCounts[best]))
  {
    var ids := ExpandedIds(log);
    var st := StatsOf(log, emails);
    SumCountsOfFirstSeen(ids);
    ExpandedIdsCount(log);
    if |ids| > 0 {
      assert ids[0] in st.viewOrder;
    }
    if st.mostViewedProfile.Some? {
      var order, counts := st.viewOrder, st.profileViewCounts;
      var i := ReduceMaxIndex(order, counts);
      ReduceMaxIndexOverAllKeys(order, counts);
      assert order[i] == st.mostViewedProfile.value;
    }
  }

  /** When `keys` lists every key of `counts`, the reduce's winner beats every key, not only the listed ones. */
  lemma ReduceMaxIndexOverAllKeys(keys: seq<string>, counts: map<string, nat>)
    requires |keys| > 0
    requires forall k :: k in keys <==> k in counts
    ensures forall k :: k in counts ==> counts[k] <= counts[keys[ReduceMaxIndex(keys, counts)]]
  {
    forall k | k in counts
      ensures counts[k] <= counts[keys[ReduceMaxIndex(keys, counts)]]
    {
      var j :| 0 <= j < |keys| && keys[j] == k;
    }
  }

  /** The profile page: the panels present (by element id), the two stored logs and the page's path. */
  class ProfileManager {
    var panels: map<string, Panel>
    var profileInteractions: seq<ProfileInteraction>
    var emailInteractions: seq<EmailInteraction>
    const page: string

    constructor (panels: map<string, Panel>, profileLog: seq<ProfileInteraction>,
                 emailLog: seq<EmailInteraction>, page: string)
      ensures this.panels == panels && this.page == page
      ensures profileInteractions == profileLog && emailInteractions == emailLog
    {
      this.panels := panels;
      this.profileInteractions := profileLog;
      this.emailInteractions := emailLog;
      this.page := page;
    }

    /** `toggleProfile`: nothing at all when the element is missing; otherwise close the others, flip it and log. */
    method ToggleProfile(id: string)
      modifies this
      ensures id !in old(panels) ==> panels == old(panels) && profileInteractions == old(profileInteractions)
      ensures id in old(panels) ==>
        var wasExpanded := old(panels)[id].expanded;
        panels == Toggled(old(panels), id) &&
        profileInteractions == BoundedAppend(old(profileInteractions),
          ProfileInteraction(id, if wasExpanded then CollapseAction else ExpandAction, page), ProfileLogCap)
      ensures id in old(panels) ==> panels[id].expanded == !old(panels)[id].expanded && AtMostOneExpanded(panels)
      ensures emailInteractions == old(emailInteractions)
    {
      if id !in panels {
        return;
      }
      var isExpanded := panels[id].expanded;
      CloseOtherProfiles(id);
      if isExpanded {
        CollapseProfile(id);
      } else {
        ExpandProfile(id);
      }
      TrackProfileInteraction(id, !isExpanded);
      ToggledProperties(old(panels), id);
    }

    method ExpandProfile(id: string)
      requires id in panels
      modifies this
      ensures panels == old(panels)[id := Expand(old(panels)[id])]
      ensures profileInteractions == old(profileInteractions) && emailInteractions == old(emailInteractions)
    {
      panels := panels[id := Expand(panels[id])];
    }

    method CollapseProfile(id: string)
      requires id in panels
      modifies this
      ensures panels == old(panels)[id := Collapse(old(panels)[id])]
      ensures profileInteractions == old(profileInteractions) && emailInteractions == old(emailInteractions)
    {
      panels := panels[id := Collapse(panels[id])];
    }

    /** `closeOtherProfiles`: over p1..p3, collapse each present, expanded panel other than `current`. */
    method CloseOtherProfiles(current: string)
      modifies this
      ensures panels == CloseExpanded(old(panels), ProfileIds, Some(current))
      ensures profileInteractions == old(profileInteractions) && emailInteractions == old(emailInteractions)
    {
      CloseEach(Some(current));
    }

    /** `closeAllProfiles`: over p1..p3, collapse each present, expanded panel. */
    method CloseAllProfiles()
      modifies this
      ensures panels == CloseExpanded(old(panels), ProfileIds, None)
      ensures profileInteractions == old(profileInteractions) && emailInteractions == old(emailInteractions)
    {
      CloseEach(None);
    }

    /** The `forEach` over p1..p3 shared by the two close operations. */
    method CloseEach(spared: Option<string>)
      modifies this
      ensures panels == CloseExpanded(old(panels), ProfileIds, spared)
      ensures profileInteractions == old(profileInteractions) && emailInteractions == old(emailInteractions)
    {
      for i := 0 to |ProfileIds|
        invariant panels == CloseExpanded(old(panels), ProfileIds[..i], spared)
        invariant profileInteractions == old(profileInteractions) && emailInteractions == old(emailInteractions)
      {
        var id := ProfileIds[i];
        assert ProfileIds[..i + 1] == ProfileIds[..i] + [id];
        assert id !in ProfileIds[..i];
        CloseExpandedSnoc(old(panels), ProfileIds[..i], id, spared);
        if Some(id) != spared && id in panels && panels[id].expanded {
          CollapseProfile(id);
        }
      }
      assert ProfileIds[..|ProfileIds|] == ProfileIds;
    }

    /** `trackProfileInteraction`: append the record, keep the newest 50. */
    method TrackProfileInteraction(id: string, expanded: bool)
      modifies this
      ensures profileInteractions == BoundedAppend(old(profileInteractions),
        ProfileInteraction(id, if expanded then ExpandAction else CollapseAction, page), ProfileLogCap)
      ensures panels == old(panels) && emailInteractions == old(emailInteractions)
    {
      var interaction := ProfileInteraction(id, if expanded then ExpandAction else CollapseAction, page);
      profileInteractions := profileInteractions + [interaction];
      if |profileInteractions| > ProfileLogCap {
        profileInteractions := profileInteractions[|profileInteractions| - ProfileLogCap..];
      }
    }

    /** `trackEmailClick`: append the record, keep the newest 20. */
    method TrackEmailClick(email: string)
      modifies this
      ensures emailInteractions == BoundedAppend(old(emailInteractions), EmailInteraction(email, page), EmailLogCap)
      ensures panels == old(panels) && profileInteractions == old(profileInteractions)
    {
      emailInteractions := emailInteractions + [EmailInteraction(email, page)];
      if |emailInteractions| > EmailLogCap {
        emailInteractions := emailInteractions[|emailInteractions| - EmailLogCap..];
      }
    }

    /** `getProfileStats`: count the expands per profile, then reduce to the most viewed one. */
    method GetProfileStats() returns (stats: ProfileStats)
      ensures stats == StatsOf(profileInteractions, emailInteractions)
    {
      var ids := ExpandedIds(profileInteractions);
      var counts, order := TallyKeys(ids);
      var most: Option<string> := None;
      if |order| > 0 {
        var best := ReduceMax(order, counts);
        most := Some(order[best]);
      }
      stats := ProfileStats(|ids|, |emailInteractions|, most, counts, order);
    }
  }
}
