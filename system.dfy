/** `System` in `pyuniden/other_classes.py`: a system of the scan settings.

    `get_data` reads the system's SIN record, walks its chain of groups (a
    conventional system) or sites (a trunked one), and for a trunked system
    reads its TRN record and walks its talk-group groups; then it reads the
    group quick lockout (QGL) and polls the locked-out talk groups (GLI, SLI).
    `set_data` writes all of that back except the links and the polled lists.

    The system keeps each child's value (index, fields, links and its own
    children) in a dictionary under the child's index, as `Group` does. */
module Systems {
  import opened Wrappers
  import opened Wire
  import opened Errors
  import opened Protocol
  import opened Records
  import opened Chains
  import opened Leaves
  import opened Groups
  import opened Sites
  import opened Util

  datatype SystemValue = SystemValue(
    index: string, data: SystemData, links: Option<SystemLinks>,
    trunk: TrunkData, trunkLinks: Option<TrunkLinks>,
    groups: map<string, GroupValue>, sites: map<string, SiteValue>,
    quickLockout: seq<char>, loutTgids: seq<string>, srchLoutTgids: seq<string>)

  /** `System.__init__`: default fields, no links, no children, empty tuples. */
  function SystemInit(index: string): SystemValue
  {
    SystemValue(index, SystemDefaults, None, TrunkDefaults, None, map[], map[], [], [], [])
  }

  function SiteInit(index: string): SiteValue
  {
    SiteValue(index, SiteDefaults, None, map[], None, None)
  }

  function SystemIndex(s: SystemValue): string { s.index }

  /** What (part of) `System.get_data` did: commands, device, outcome, and
      each thing it read, if it got that far. */
  datatype SystemFetch = SystemFetch(
    sent: seq<string>, dev: Device, outcome: Outcome<Error>,
    parsed: Option<(SystemData, SystemLinks)>,
    groups: seq<Visit<GroupValue>>, sites: seq<Visit<SiteValue>>,
    trunk: Option<(TrunkData, TrunkLinks)>, quickLockout: Option<seq<char>>,
    loutTgids: Option<seq<string>>, srchLoutTgids: Option<seq<string>>)

  function Later<T>(a: Option<T>, b: Option<T>): Option<T>
  {
    if b.Some? then b else a
  }

  /** `b` done after `a`. */
  function Join(a: SystemFetch, b: SystemFetch): SystemFetch
  {
    SystemFetch(a.sent + b.sent, b.dev, b.outcome, Later(a.parsed, b.parsed),
                a.groups + b.groups, a.sites + b.sites, Later(a.trunk, b.trunk),
                Later(a.quickLockout, b.quickLockout), Later(a.loutTgids, b.loutTgids),
                Later(a.srchLoutTgids, b.srchLoutTgids))
  }

  /** The object after (part of) `get_data`: every field read is replaced,
      every child walked is stored; the rest stays. */
  function Apply(v: SystemValue, s: SystemFetch): SystemValue
  {
    SystemValue(v.index,
                if s.parsed.Some? then s.parsed.value.0 else v.data,
                if s.parsed.Some? then Some(s.parsed.value.1) else v.links,
                if s.trunk.Some? then s.trunk.value.0 else v.trunk,
                if s.trunk.Some? then Some(s.trunk.value.1) else v.trunkLinks,
                v.groups + Stored(s.groups), v.sites + Stored(s.sites),
                if s.quickLockout.Some? then s.quickLockout.value else v.quickLockout,
                if s.loutTgids.Some? then s.loutTgids.value else v.loutTgids,
                if s.srchLoutTgids.Some? then s.srchLoutTgids.value else v.srchLoutTgids)
  }

  /** Taking in two parts one after the other is taking in both at once. */
  lemma ApplyJoin(v: SystemValue, a: SystemFetch, b: SystemFetch)
    ensures Apply(Apply(v, a), b) == Apply(v, Join(a, b))
  {
    StoredConcat(a.groups, b.groups);
    StoredConcat(a.sites, b.sites);
    UnionAssoc(v.groups, Stored(a.groups), Stored(b.groups));
    UnionAssoc(v.sites, Stored(a.sites), Stored(b.sites));
  }

  lemma UnionAssoc<V>(a: map<string, V>, b: map<string, V>, c: map<string, V>)
    ensures (a + b) + c == a + (b + c)
  {
    var l := (a + b) + c;
    var r := a + (b + c);
    assert l.Keys == r.Keys;
    forall k | k in l
      ensures l[k] == r[k]
    {
    }
  }

  /** A part that sent commands and read nothing. */
  function Plain(sent: seq<string>, dev: Device, outcome: Outcome<Error>): SystemFetch
  {
    SystemFetch(sent, dev, outcome, None, [], [], None, None, None, None)
  }

  lemma ApplyPlain(v: SystemValue, sent: seq<string>, dev: Device, outcome: Outcome<Error>)
    ensures Apply(v, Plain(sent, dev, outcome)) == v
  {
    assert v.groups + map[] == v.groups;
    assert v.sites + map[] == v.sites;
  }

  type GroupFetcher = (Device, string) -> Fetched<GroupValue>
  type SiteFetcher = (Device, string) -> Fetched<SiteValue>

  /** The first walk: from `chn_grp_head`, groups for a CNV system and sites
      for any other type. This stage and the ones after it take the group
      and site fetches as parameters; `FetchSystemParts` passes the ones of
      the system's type. */
  function FetchChain(dev: Device, sysType: string, head: string, groups: GroupFetcher,
                      sites: SiteFetcher, fuel: nat): (s: SystemFetch)
    ensures s.parsed.None? && s.trunk.None? && s.quickLockout.None? && s.loutTgids.None? && s.srchLoutTgids.None?
    ensures sysType == "CNV" ==> s.sites == []
    ensures sysType != "CNV" ==> s.groups == []
  {
    if sysType == "CNV" then
      var w := Walk(groups, dev, head, fuel);
      SystemFetch(w.sent, w.dev, w.outcome, None, w.visits, [], None, None, None, None)
    else
      var w := Walk(sites, dev, head, fuel);
      SystemFetch(w.sent, w.dev, w.outcome, None, [], w.visits, None, None, None, None)
  }

  /** For a system that is not CNV: TRN, then the walk from its
      `tgid_grp_head` into the groups. A CNV system does nothing here. */
  function FetchTrunk(dev: Device, index: string, sysType: string, groups: GroupFetcher, fuel: nat): (s: SystemFetch)
    ensures s.parsed.None? && s.sites == [] && s.quickLockout.None? && s.loutTgids.None? && s.srchLoutTgids.None?
    ensures sysType == "CNV" ==> s == Plain([], dev, Pass)
    ensures sysType != "CNV" ==> |s.sent| > 0 && s.sent[0] == Line(["TRN", index])
  {
    if sysType == "CNV" then Plain([], dev, Pass)
    else
      var x := Ask(dev, Line(["TRN", index]));
      if x.result.Failure? then Plain(x.sent, x.dev, Fail(x.result.error))
      else match ParseTrunk(x.result.value)
      case Failure(e) => Plain(x.sent, x.dev, Fail(e))
      case Success(p) =>
        var w := Walk(groups, x.dev, p.1.tgidGrpHead, fuel);
        SystemFetch(x.sent + w.sent, w.dev, w.outcome, None, w.visits, [], Some(p), None, None, None)
  }

  /** QGL: the quick-lockout string, stored through `zero_to_head`. */
  function FetchQuickLockout(dev: Device, index: string): (s: SystemFetch)
    ensures s.sent == [Line(["QGL", index])]
    ensures s.outcome.Pass? <==> s.quickLockout.Some?
    ensures s.parsed.None? && s.groups == [] && s.sites == [] && s.trunk.None?
            && s.loutTgids.None? && s.srchLoutTgids.None?
  {
    var x := AskSecond(dev, Line(["QGL", index]));
    if x.result.Failure? then Plain(x.sent, x.dev, Fail(x.result.error))
    else SystemFetch(x.sent, x.dev, Pass, None, [], [], None, Some(ZeroToHead(x.result.value)), None, None)
  }

  /** `get_lockout_tgids`: the GLI poll, then the SLI poll. Each list is
      stored only once its poll has ended normally. */
  function FetchLockouts(dev: Device, index: string, fuel: nat): (s: SystemFetch)
    ensures s.parsed.None? && s.groups == [] && s.sites == [] && s.trunk.None? && s.quickLockout.None?
    ensures s.outcome.Pass? <==> s.srchLoutTgids.Some?
    ensures s.srchLoutTgids.Some? ==> s.loutTgids.Some?
  {
    var p := Poll(dev, Line(["GLI", index]), fuel);
    if p.outcome.Fail? then Plain(p.sent, p.dev, p.outcome)
    else
      var q := Poll(p.dev, Line(["SLI", index]), fuel);
      SystemFetch(p.sent + q.sent, q.dev, q.outcome, None, [], [], None, None, Some(p.tokens),
                  if q.outcome.Pass? then Some(q.tokens) else None)
  }

  /** What follows the walks: QGL, then the polls. */
  function FetchTail(dev: Device, index: string, fuel: nat): SystemFetch
  {
    var q := FetchQuickLockout(dev, index);
    if q.outcome.Fail? then q else Join(q, FetchLockouts(q.dev, index, fuel))
  }

  /** What follows the first walk. */
  function FetchAfterChain(dev: Device, index: string, sysType: string, groups: GroupFetcher, fuel: nat): SystemFetch
  {
    var t := FetchTrunk(dev, index, sysType, groups, fuel);
    if t.outcome.Fail? then t else Join(t, FetchTail(t.dev, index, fuel))
  }

  /** What follows SIN. */
  function FetchSystemRest(dev: Device, index: string, sysType: string, head: string,
                           groups: GroupFetcher, sites: SiteFetcher, fuel: nat): SystemFetch
  {
    var c := FetchChain(dev, sysType, head, groups, sites, fuel);
    if c.outcome.Fail? then c else Join(c, FetchAfterChain(c.dev, index, sysType, groups, fuel))
  }

  /** SIN: the system's own record, unpacked. */
  function FetchSystemRecord(dev: Device, index: string): (s: SystemFetch)
    ensures s.sent == [Line(["SIN", index])]
    ensures s.outcome.Pass? <==> s.parsed.Some?
    ensures s.groups == [] && s.sites == [] && s.trunk.None? && s.quickLockout.None?
            && s.loutTgids.None? && s.srchLoutTgids.None?
  {
    var x := Ask(dev, Line(["SIN", index]));
    if x.result.Failure? then Plain(x.sent, x.dev, Fail(x.result.error))
    else match ParseSystem(x.result.value)
    case Failure(e) => Plain(x.sent, x.dev, Fail(e))
    case Success(p) => SystemFetch(x.sent, x.dev, Pass, Some(p), [], [], None, None, None, None)
  }

  /** `System.get_data`, which returns 1 when nothing raised. The system
      type the walks go by is the one just read. */
  function FetchSystemParts(dev: Device, index: string, fuel: nat): (s: SystemFetch)
    ensures s.outcome.Pass? ==> s.parsed.Some?
    ensures s.parsed.None? ==> s == Plain([Line(["SIN", index])], s.dev, s.outcome)
  {
    var a := FetchSystemRecord(dev, index);
    if a.outcome.Fail? then a
    else
      var p := a.parsed.value;
      Join(a, FetchSystemRest(a.dev, index, p.0.sysType, p.1.chnGrpHead,
                              FetchGroup(p.0.sysType, fuel), FetchSite(fuel), fuel))
  }

  /** A system made fresh and fetched, as the scanner's walk stores it. */
  function FetchSystem(fuel: nat): (Device, string) -> Fetched<SystemValue>
  {
    (dev: Device, index: string) =>
      var s := FetchSystemParts(dev, index, fuel);
      Fetched(s.sent, s.dev,
              if s.outcome.Fail? then Failure(s.outcome.error)
              else Success((Apply(SystemInit(index), s), s.parsed.value.1.fwd)))
  }

  /** The first walk with a larger bound and fetches that extend the
      smaller ones: the same, once it ended within the smaller bound. */
  lemma FetchChainFuel(dev: Device, sysType: string, head: string, groups: GroupFetcher, sites: SiteFetcher,
                       groups': GroupFetcher, sites': SiteFetcher, fuel: nat, more: nat)
    requires Extends(groups, groups') && Extends(sites, sites') && fuel <= more
    requires FetchChain(dev, sysType, head, groups, sites, fuel).outcome != Fail(Diverges)
    ensures FetchChain(dev, sysType, head, groups', sites', more) == FetchChain(dev, sysType, head, groups, sites, fuel)
  {
    if sysType == "CNV" {
      WalkFuelsAgree(groups, groups', dev, head, fuel, more);
    } else {
      WalkFuelsAgree(sites, sites', dev, head, fuel, more);
    }
  }

  lemma FetchTrunkFuel(dev: Device, index: string, sysType: string, groups: GroupFetcher, groups': GroupFetcher,
                       fuel: nat, more: nat)
    requires Extends(groups, groups') && fuel <= more
    requires FetchTrunk(dev, index, sysType, groups, fuel).outcome != Fail(Diverges)
    ensures FetchTrunk(dev, index, sysType, groups', more) == FetchTrunk(dev, index, sysType, groups, fuel)
  {
    if sysType != "CNV" {
      var x := Ask(dev, Line(["TRN", index]));
      if x.result.Success? && ParseTrunk(x.result.value).Success? {
        WalkFuelsAgree(groups, groups', x.dev, ParseTrunk(x.result.value).value.1.tgidGrpHead, fuel, more);
      }
    }
  }

  lemma FetchLockoutsFuel(dev: Device, index: string, fuel: nat, more: nat)
    requires fuel <= more
    requires FetchLockouts(dev, index, fuel).outcome != Fail(Diverges)
    ensures FetchLockouts(dev, index, more) == FetchLockouts(dev, index, fuel)
  {
    var p := Poll(dev, Line(["GLI", index]), fuel);
    PollFuelIrrelevant(dev, Line(["GLI", index]), fuel, more);
    if p.outcome.Pass? {
      PollFuelIrrelevant(p.dev, Line(["SLI", index]), fuel, more);
    }
  }

  lemma FetchAfterChainFuel(dev: Device, index: string, sysType: string, groups: GroupFetcher,
                            groups': GroupFetcher, fuel: nat, more: nat)
    requires Extends(groups, groups') && fuel <= more
    requires FetchAfterChain(dev, index, sysType, groups, fuel).outcome != Fail(Diverges)
    ensures FetchAfterChain(dev, index, sysType, groups', more) == FetchAfterChain(dev, index, sysType, groups, fuel)
  {
    var t := FetchTrunk(dev, index, sysType, groups, fuel);
    FetchTrunkFuel(dev, index, sysType, groups, groups', fuel, more);
    if t.outcome.Pass? {
      var q := FetchQuickLockout(t.dev, index);
      if q.outcome.Pass? {
        FetchLockoutsFuel(q.dev, index, fuel, more);
      }
    }
  }

  lemma FetchSystemRestFuel(dev: Device, index: string, sysType: string, head: string,
                            groups: GroupFetcher, sites: SiteFetcher,
                            groups': GroupFetcher, sites': SiteFetcher, fuel: nat, more: nat)
    requires Extends(groups, groups') && Extends(sites, sites') && fuel <= more
    requires FetchSystemRest(dev, index, sysType, head, groups, sites, fuel).outcome != Fail(Diverges)
    ensures FetchSystemRest(dev, index, sysType, head, groups', sites', more)
            == FetchSystemRest(dev, index, sysType, head, groups, sites, fuel)
  {
    var c := FetchChain(dev, sysType, head, groups, sites, fuel);
    FetchChainFuel(dev, sysType, head, groups, sites, groups', sites', fuel, more);
    if c.outcome.Pass? {
      FetchAfterChainFuel(c.dev, index, sysType, groups, groups', fuel, more);
    }
  }

  /** More fuel changes nothing in a system's `get_data` that ended within
      its bound, although the bound is also handed to every group's and
      site's own walk. */
  lemma FetchSystemPartsFuel(dev: Device, index: string, fuel: nat, more: nat)
    requires fuel <= more
    requires FetchSystemParts(dev, index, fuel).outcome != Fail(Diverges)
    ensures FetchSystemParts(dev, index, more) == FetchSystemParts(dev, index, fuel)
  {
    var a := FetchSystemRecord(dev, index);
    if a.outcome.Pass? {
      var p := a.parsed.value;
      FetchGroupFuel(p.0.sysType, fuel, more);
      FetchSiteFuel(fuel, more);
      FetchSystemRestFuel(a.dev, index, p.0.sysType, p.1.chnGrpHead, FetchGroup(p.0.sysType, fuel),
                          FetchSite(fuel), FetchGroup(p.0.sysType, more), FetchSite(more), fuel, more);
    }
  }

  /** A system fetch handed a larger bound extends the one with the smaller. */
  lemma FetchSystemFuel(fuel: nat, more: nat)
    requires fuel <= more
    ensures Extends(FetchSystem(fuel), FetchSystem(more))
  {
    forall d: Device, i: string | FetchSystem(fuel)(d, i).result != Failure(Diverges)
      ensures FetchSystem(more)(d, i) == FetchSystem(fuel)(d, i)
    {
      FetchSystemPartsFuel(d, i, fuel, more);
    }
  }

  /** Each `corders[i]` and `torders[i]` names only channels and talk groups
      of the group stored under `order[i]`. */
  ghost predicate GroupOrdersFit(m: map<string, GroupValue>, order: seq<string>,
                                 corders: seq<seq<string>>, torders: seq<seq<string>>)
  {
    |corders| == |order| && |torders| == |order|
    && forall i :: 0 <= i < |order| ==>
         order[i] in m
         && (forall k :: k in corders[i] ==> k in m[order[i]].channels)
         && (forall k :: k in torders[i] ==> k in m[order[i]].tgids)
  }

  ghost predicate SiteOrdersFit(m: map<string, SiteValue>, order: seq<string>, forders: seq<seq<string>>)
  {
    |forders| == |order|
    && forall i :: 0 <= i < |order| ==>
         order[i] in m && (forall k :: k in forders[i] ==> k in m[order[i]].trunkFrqs)
  }

  /** `order` is an iteration order of the groups, and each group's
      channels and talk groups are listed in the matching entries. */
  ghost predicate GroupOrdersListed(m: map<string, GroupValue>, order: seq<string>,
                                    corders: seq<seq<string>>, torders: seq<seq<string>>)
  {
    GroupOrdersFit(m, order, corders, torders) && ListsKeys(order, m)
    && forall i :: 0 <= i < |order| ==>
         ListsKeys(corders[i], m[order[i]].channels) && ListsKeys(torders[i], m[order[i]].tgids)
  }

  ghost predicate SiteOrdersListed(m: map<string, SiteValue>, order: seq<string>, forders: seq<seq<string>>)
  {
    SiteOrdersFit(m, order, forders) && ListsKeys(order, m)
    && forall i :: 0 <= i < |order| ==> ListsKeys(forders[i], m[order[i]].trunkFrqs)
  }

  /** The orders in which `set_data` meets the groups and, inside each,
      the channels and talk groups. */
  method GroupOrders(m: map<string, GroupValue>)
    returns (order: seq<string>, corders: seq<seq<string>>, torders: seq<seq<string>>)
    ensures GroupOrdersListed(m, order, corders, torders)
  {
    order := KeyOrder(m);
    corders, torders := [], [];
    while |corders| < |order|
      invariant |corders| <= |order| && |torders| == |corders|
      invariant forall i :: 0 <= i < |corders| ==>
                  ListsKeys(corders[i], m[order[i]].channels) && ListsKeys(torders[i], m[order[i]].tgids)
    {
      var g := m[order[|corders|]];
      var c := KeyOrder(g.channels);
      var t := KeyOrder(g.tgids);
      corders, torders := corders + [c], torders + [t];
    }
  }

  /** The orders in which `set_data` meets the sites and their frequencies. */
  method SiteOrders(m: map<string, SiteValue>) returns (order: seq<string>, forders: seq<seq<string>>)
    ensures SiteOrdersListed(m, order, forders)
  {
    order := KeyOrder(m);
    forders := [];
    while |forders| < |order|
      invariant |forders| <= |order|
      invariant forall i :: 0 <= i < |forders| ==> ListsKeys(forders[i], m[order[i]].trunkFrqs)
    {
      var f := KeyOrder(m[order[|forders|]].trunkFrqs);
      forders := forders + [f];
    }
  }

  /** `for g in self.groups.values(): g.set_data()`, the groups taken in
      `order` and each group's children in its own orders. */
  function GroupsLines(m: map<string, GroupValue>, order: seq<string>,
                       corders: seq<seq<string>>, torders: seq<seq<string>>): seq<string>
    requires GroupOrdersFit(m, order, corders, torders)
    decreases |order|
  {
    if |order| == 0 then []
    else
      var g := m[order[0]];
      GroupLines(g.index, g.data, g.channels, g.tgids, corders[0], torders[0])
      + GroupsLines(m, order[1..], corders[1..], torders[1..])
  }

  /** `for s in self.sites.values(): s.set_data()`. */
  function SitesLines(m: map<string, SiteValue>, order: seq<string>, forders: seq<seq<string>>): seq<string>
    requires SiteOrdersFit(m, order, forders)
    decreases |order|
  {
    if |order| == 0 then []
    else
      var s := m[order[0]];
      SiteLines(s.index, s.data, s.trunkFrqs, forders[0]) + SitesLines(m, order[1..], forders[1..])
  }

  /** The QGL set command `set_data` sends: the quick-lockout string through
      the source's `zero_to_tail`. */
  function QuickLockoutLine(index: string, quickLockout: seq<char>): (r: string)
    ensures |quickLockout| == 10 ==>
              r == Line(["QGL", index, quickLockout[1..9] + [quickLockout[0], quickLockout[9]]])
    ensures |quickLockout| != 10 ==> r == Line(["QGL", index, quickLockout])
  {
    TailAsWrittenShape(quickLockout);
    Line(["QGL", index, ZeroToTailAsWritten(quickLockout)])
  }

  /** The QGL set command with the intended `zero_to_tail`, which turns the
      string back into the scanner's order. */
  function CorrectedQuickLockoutLine(index: string, quickLockout: seq<char>): (r: string)
    ensures |quickLockout| == 10 ==>
              r == Line(["QGL", index, quickLockout[1..] + [quickLockout[0]]])
    ensures |quickLockout| != 10 ==> r == Line(["QGL", index, quickLockout])
  {
    TailRotates(quickLockout);
    Line(["QGL", index, ZeroToTail(quickLockout)])
  }

  /** What `System.set_data` sends: SIN, every group, and for a system that
      is not CNV, TRN and every site; QGL last. */
  function SystemLines(v: SystemValue, gorder: seq<string>, corders: seq<seq<string>>,
                       torders: seq<seq<string>>, sorder: seq<string>, forders: seq<seq<string>>): (r: seq<string>)
    requires GroupOrdersFit(v.groups, gorder, corders, torders)
    requires SiteOrdersFit(v.sites, sorder, forders)
    ensures |r| >= 2 && r[0] == SystemSet(v.index, v.data)
    ensures r[|r| - 1] == QuickLockoutLine(v.index, v.quickLockout)
  {
    [SystemSet(v.index, v.data)] + GroupsLines(v.groups, gorder, corders, torders)
    + (if v.data.sysType != "CNV" then [TrunkSet(v.index, v.trunk)] + SitesLines(v.sites, sorder, forders) else [])
    + [QuickLockoutLine(v.index, v.quickLockout)]
  }

  /** A CNV system sends exactly its SIN line, its groups and its QGL line:
      neither TRN nor any site goes out, whatever `sites` holds. */
  lemma ConventionalSendsNoTrunk(v: SystemValue, gorder: seq<string>, corders: seq<seq<string>>,
                                 torders: seq<seq<string>>, sorder: seq<string>, forders: seq<seq<string>>)
    requires GroupOrdersFit(v.groups, gorder, corders, torders)
    requires SiteOrdersFit(v.sites, sorder, forders)
    requires v.data.sysType == "CNV"
    ensures SystemLines(v, gorder, corders, torders, sorder, forders)
            == [SystemSet(v.index, v.data)] + GroupsLines(v.groups, gorder, corders, torders)
               + [QuickLockoutLine(v.index, v.quickLockout)]
  {
    var g := GroupsLines(v.groups, gorder, corders, torders);
    assert [SystemSet(v.index, v.data)] + g + [] == [SystemSet(v.index, v.data)] + g;
  }

  /** The quick-lockout write-back as the source has it: the string
      `get_data` stores from QGL goes back out of `set_data` with its last
      two characters exchanged when it has ten, and unchanged otherwise. */
  lemma QuickLockoutWrittenBack(dev: Device, index: string)
    ensures var s := FetchQuickLockout(dev, index);
            s.quickLockout.Some? ==>
              QuickLockoutLine(index, s.quickLockout.value)
              == Line(["QGL", index, SwapLastTwo(AskSecond(dev, Line(["QGL", index])).result.value)])
  {
    var x := AskSecond(dev, Line(["QGL", index]));
    if x.result.Success? {
      HeadThenTailAsWritten(x.result.value);
    }
  }

  /** The intended round trip: with the corrected `zero_to_tail`, whatever
      QGL answered is written back exactly as read. */
  lemma CorrectedQuickLockoutWrittenBack(dev: Device, index: string)
    ensures var s := FetchQuickLockout(dev, index);
            s.quickLockout.Some? ==>
              CorrectedQuickLockoutLine(index, s.quickLockout.value)
              == Line(["QGL", index, AskSecond(dev, Line(["QGL", index])).result.value])
  {
    var x := AskSecond(dev, Line(["QGL", index]));
    if x.result.Success? {
      TailUndoesHead(x.result.value);
    }
  }

  /** `set_data`'s QGL line is the intended one exactly when the string does
      not have ten characters or its first and last characters are equal. */
  lemma QuickLockoutLinesAgree(index: string, quickLockout: seq<char>)
    ensures QuickLockoutLine(index, quickLockout) == CorrectedQuickLockoutLine(index, quickLockout)
            <==> (|quickLockout| != 10 || quickLockout[0] == quickLockout[9])
  {
    TailsAgree(quickLockout);
    var a := ZeroToTailAsWritten(quickLockout);
    var b := ZeroToTail(quickLockout);
    if Line(["QGL", index, a]) == Line(["QGL", index, b]) {
      LineLastField("QGL", index, a, b);
    }
  }

  /** The keys of the dictionary `System.dump` returns: fourteen for a CNV
      system; a trunked one adds its trunk fields, its sites and its
      lockout lists (`grp_lockout` is in both sets). */
  function SystemDumpKeys(sysType: string): (keys: set<string>)
    ensures "grp_lockout" in keys && "groups" in keys
    ensures "sites" in keys <==> sysType != "CNV"
    ensures "tgids_lockout" in keys <==> sysType != "CNV"
    ensures "search_lockout" in keys <==> sysType != "CNV"
  {
    var base := {"type", "name", "quick_key", "hold", "delay", "lockout", "start_key", "tag",
                 "agc_analog", "agc_digital", "p25_waiting", "protected", "groups", "grp_lockout"};
    var trunked := {"id_mode", "status", "end_code", "edacs_format", "alert", "alert_lvl",
                    "grp_lockout", "fleet_map", "custom_fmap", "id_format", "alert_color",
                    "pattern", "nac", "priority", "sites", "tgids_lockout", "search_lockout"};
    if sysType == "CNV" then base else base + trunked
  }

  class System {
    const link: Link
    const index: string
    var data: SystemData
    var links: Option<SystemLinks>
    var trunk: TrunkData
    var trunkLinks: Option<TrunkLinks>
    var groups: map<string, GroupValue>
    var sites: map<string, SiteValue>
    var quickLockout: seq<char>
    var loutTgids: seq<string>
    var srchLoutTgids: seq<string>

    /** Every group and every site sits under its own index. */
    ghost predicate Valid()
      reads this
    {
      Keyed(groups, GroupIndex) && Keyed(sites, SiteIndex)
    }

    function Value(): SystemValue
      reads this
    {
      SystemValue(index, data, links, trunk, trunkLinks, groups, sites, quickLockout, loutTgids, srchLoutTgids)
    }

    /** `System.__init__`. */
    constructor (link: Link, index: string)
      ensures this.link == link && this.index == index
      ensures Valid()
      ensures Value() == SystemInit(index)
    {
      this.link := link;
      this.index := index;
      data := SystemDefaults;
      links := None;
      trunk := TrunkDefaults;
      trunkLinks := None;
      groups := map[];
      sites := map[];
      quickLockout := [];
      loutTgids := [];
      srchLoutTgids := [];
    }

    /** A new `Group(link, idx, sys_type)` and its `get_data`: the group's
        value, if that succeeds, and its forward index. */
    method NewGroup(idx: string, ghost fetch: GroupFetcher, ghost fuel: nat)
      returns (r: Outcome<Error>, next: string, value: GroupValue, ghost fc: Fetched<GroupValue>)
      requires Agrees(fetch, FetchGroup(data.sysType, fuel))
      requires fetch(link.device, idx).result != Failure(Diverges)
      modifies link
      ensures fc == fetch(old(link.device), idx)
      ensures link.device == fc.dev && link.log == old(link.log) + fc.sent
      ensures fc.result.Success? ==> r == Pass && fc.result.value == (value, next) && value.index == idx
      ensures fc.result.Failure? ==> r == Fail(fc.result.error)
    {
      fc := FetchGroup(data.sysType, fuel)(link.device, idx);
      ghost var parts := FetchGroupParts(link.device, idx, data.sysType, fuel);
      var g := new Group(link, idx, data.sysType);
      r := g.GetData(fuel);
      value := g.Value();
      if r.Fail? {
        return r, idx, value, fc;
      }
      next := g.links.value.fwd;
      NothingBelow(Stored(parts.channels));
      NothingBelow(Stored(parts.tgids));
    }

    /** Step `idx` of a group walk over `fetch`, which agrees with the system's
        group fetch. */
    method StepGroup(ghost fetch: GroupFetcher, ghost fuel: nat, idx: string,
                   ghost whole: Walked<GroupValue>, ghost sent: seq<string>, ghost visits: seq<Visit<GroupValue>>,
                   ghost f: nat, ghost log0: seq<string>, ghost map0: map<string, GroupValue>)
      returns (r: Outcome<Error>, next: string, ghost sent': seq<string>, ghost visits': seq<Visit<GroupValue>>)
      requires Agrees(fetch, FetchGroup(data.sysType, fuel))
      requires WalkAt(fetch, whole, sent, visits, link.device, idx, f)
      requires ParseInt(idx).Some? && !IsEnd(idx) && whole.outcome != Fail(Diverges)
      requires link.log == log0 + sent && groups == map0 + Stored(visits) && Keyed(groups, GroupIndex)
      modifies this, link
      ensures data == old(data) && links == old(links) && trunk == old(trunk) && trunkLinks == old(trunkLinks)
      ensures sites == old(sites) && quickLockout == old(quickLockout) && loutTgids == old(loutTgids) && srchLoutTgids == old(srchLoutTgids)
      ensures Keyed(groups, GroupIndex)
      ensures link.log == log0 + sent'
      ensures r.Pass? ==>
                f > 0 && groups == map0 + Stored(visits')
                && WalkAt(fetch, whole, sent', visits', link.device, next, f - 1)
      ensures r.Fail? ==> groups == map0 + Stored(visits) && whole == Walked(sent', link.device, visits, r)
    {
      WalkAtBounded(fetch, whole, sent, visits, link.device, idx, f);
      var value;
      ghost var fc;
      r, next, value, fc := NewGroup(idx, fetch, fuel);
      WalkAtNext(fetch, whole, sent, visits, old(link.device), idx, f, fc);
      sent' := sent + fc.sent;
      assert log0 + sent' == (log0 + sent) + fc.sent;
      if r.Fail? {
        return r, idx, sent', visits;
      }
      ghost var vis := Visit(idx, value, next);
      StoreOneMore(map0, visits, vis);
      groups := groups[idx := value];
      visits' := visits + [vis];
    }

    /** The group walk of `get_data`: from `head`, fetch a group, store it
        under its index and move to its forward index, until -1. */
    method WalkGroups(head: string, ghost fetch: GroupFetcher, ghost fuel: nat)
      returns (r: Outcome<Error>, ghost visits: seq<Visit<GroupValue>>)
      requires Agrees(fetch, FetchGroup(data.sysType, fuel))
      requires Walk(fetch, link.device, head, fuel).outcome != Fail(Diverges)
      requires Keyed(groups, GroupIndex)
      modifies this, link
      ensures var w := Walk(fetch, old(link.device), head, fuel);
              link.device == w.dev && link.log == old(link.log) + w.sent
              && r == w.outcome && visits == w.visits
      ensures groups == old(groups) + Stored(visits) && Keyed(groups, GroupIndex)
      ensures Value() == old(Value()).(groups := groups)
    {
      ghost var whole := Walk(fetch, link.device, head, fuel);
      WalkAtStart(fetch, link.device, head, fuel);
      ghost var sent: seq<string> := [];
      ghost var f := fuel;
      visits := [];
      var idx := head;
      while true
        invariant Agrees(fetch, FetchGroup(data.sysType, fuel))
        invariant WalkAt(fetch, whole, sent, visits, link.device, idx, f)
        invariant link.log == old(link.log) + sent
        invariant groups == old(groups) + Stored(visits) && Keyed(groups, GroupIndex)
        invariant Value() == old(Value()).(groups := groups)
        decreases f
      {
        var n := ParseInt(idx);
        if n.None? || n.value == -1 {
          WalkAtEnd(fetch, whole, sent, visits, link.device, idx, f);
          return if n.None? then Fail(IntError(idx)) else Pass, visits;
        }
        var res, next, sent', visits' := StepGroup(fetch, fuel, idx, whole, sent, visits, f,
                                                 old(link.log), old(groups));
        if res.Fail? {
          return res, visits;
        }
        sent, visits, idx, f := sent', visits', next, f - 1;
      }
    }

    /** A new `Site(link, idx)` and its `get_data`: the site's value, if
        that succeeds, and its forward index. */
    method NewSite(idx: string, ghost fetch: SiteFetcher, ghost fuel: nat)
      returns (r: Outcome<Error>, next: string, value: SiteValue, ghost fc: Fetched<SiteValue>)
      requires Agrees(fetch, FetchSite(fuel))
      requires fetch(link.device, idx).result != Failure(Diverges)
      modifies link
      ensures fc == fetch(old(link.device), idx)
      ensures link.device == fc.dev && link.log == old(link.log) + fc.sent
      ensures fc.result.Success? ==> r == Pass && fc.result.value == (value, next) && value.index == idx
      ensures fc.result.Failure? ==> r == Fail(fc.result.error)
    {
      fc := FetchSite(fuel)(link.device, idx);
      ghost var parts := FetchSiteParts(link.device, idx, fuel);
      var s := new Site(link, idx);
      r := s.GetData(fuel);
      value := s.Value();
      if r.Fail? {
        return r, idx, value, fc;
      }
      next := s.links.value.fwd;
      NothingBelow(Stored(parts.trunkFrqs));
    }

    /** Step `idx` of a site walk over `fetch`, which agrees with the system's
        site fetch. */
    method StepSite(ghost fetch: SiteFetcher, ghost fuel: nat, idx: string,
                   ghost whole: Walked<SiteValue>, ghost sent: seq<string>, ghost visits: seq<Visit<SiteValue>>,
                   ghost f: nat, ghost log0: seq<string>, ghost map0: map<string, SiteValue>)
      returns (r: Outcome<Error>, next: string, ghost sent': seq<string>, ghost visits': seq<Visit<SiteValue>>)
      requires Agrees(fetch, FetchSite(fuel))
      requires WalkAt(fetch, whole, sent, visits, link.device, idx, f)
      requires ParseInt(idx).Some? && !IsEnd(idx) && whole.outcome != Fail(Diverges)
      requires link.log == log0 + sent && sites == map0 + Stored(visits) && Keyed(sites, SiteIndex)
      modifies this, link
      ensures data == old(data) && links == old(links) && trunk == old(trunk) && trunkLinks == old(trunkLinks)
      ensures groups == old(groups) && quickLockout == old(quickLockout) && loutTgids == old(loutTgids) && srchLoutTgids == old(srchLoutTgids)
      ensures Keyed(sites, SiteIndex)
      ensures link.log == log0 + sent'
      ensures r.Pass? ==>
                f > 0 && sites == map0 + Stored(visits')
                && WalkAt(fetch, whole, sent', visits', link.device, next, f - 1)
      ensures r.Fail? ==> sites == map0 + Stored(visits) && whole == Walked(sent', link.device, visits, r)
    {
      WalkAtBounded(fetch, whole, sent, visits, link.device, idx, f);
      var value;
      ghost var fc;
      r, next, value, fc := NewSite(idx, fetch, fuel);
      WalkAtNext(fetch, whole, sent, visits, old(link.device), idx, f, fc);
      sent' := sent + fc.sent;
      assert log0 + sent' == (log0 + sent) + fc.sent;
      if r.Fail? {
        return r, idx, sent', visits;
      }
      ghost var vis := Visit(idx, value, next);
      StoreOneMore(map0, visits, vis);
      sites := sites[idx := value];
      visits' := visits + [vis];
    }

    /** The site walk of `get_data`: from `head`, fetch a site, store it
        under its index and move to its forward index, until -1. */
    method WalkSites(head: string, ghost fetch: SiteFetcher, ghost fuel: nat)
      returns (r: Outcome<Error>, ghost visits: seq<Visit<SiteValue>>)
      requires Agrees(fetch, FetchSite(fuel))
      requires Walk(fetch, link.device, head, fuel).outcome != Fail(Diverges)
      requires Keyed(sites, SiteIndex)
      modifies this, link
      ensures var w := Walk(fetch, old(link.device), head, fuel);
              link.device == w.dev && link.log == old(link.log) + w.sent
              && r == w.outcome && visits == w.visits
      ensures sites == old(sites) + Stored(visits) && Keyed(sites, SiteIndex)
      ensures Value() == old(Value()).(sites := sites)
    {
      ghost var whole := Walk(fetch, link.device, head, fuel);
      WalkAtStart(fetch, link.device, head, fuel);
      ghost var sent: seq<string> := [];
      ghost var f := fuel;
      visits := [];
      var idx := head;
      while true
        invariant WalkAt(fetch, whole, sent, visits, link.device, idx, f)
        invariant link.log == old(link.log) + sent
        invariant sites == old(sites) + Stored(visits) && Keyed(sites, SiteIndex)
        invariant Value() == old(Value()).(sites := sites)
        decreases f
      {
        var n := ParseInt(idx);
        if n.None? || n.value == -1 {
          WalkAtEnd(fetch, whole, sent, visits, link.device, idx, f);
          return if n.None? then Fail(IntError(idx)) else Pass, visits;
        }
        var res, next, sent', visits' := StepSite(fetch, fuel, idx, whole, sent, visits, f,
                                                 old(link.log), old(sites));
        if res.Fail? {
          return res, visits;
        }
        sent, visits, idx, f := sent', visits', next, f - 1;
      }
    }

    /** The first walk of `get_data`, as the type just read selects it. */
    method GetChain(head: string, ghost groups: GroupFetcher, ghost sites: SiteFetcher, ghost fuel: nat)
      returns (r: Outcome<Error>)
      requires Valid()
      requires Agrees(groups, FetchGroup(data.sysType, fuel)) && Agrees(sites, FetchSite(fuel))
      requires FetchChain(link.device, data.sysType, head, groups, sites, fuel).outcome != Fail(Diverges)
      modifies this, link
      ensures Valid()
      ensures var s := FetchChain(old(link.device), old(data.sysType), head, groups, sites, fuel);
              link.device == s.dev && link.log == old(link.log) + s.sent && r == s.outcome
              && Value() == Apply(old(Value()), s)
    {
      if data.sysType == "CNV" {
        ghost var visits;
        r, visits := WalkGroups(head, groups, fuel);
        StoreNothing(this.sites);
      } else {
        ghost var visits;
        r, visits := WalkSites(head, sites, fuel);
        StoreNothing(this.groups);
      }
    }

    /** TRN and the talk-group walk, for a system that is not CNV. */
    method GetTrunk(ghost groups: GroupFetcher, ghost fuel: nat) returns (r: Outcome<Error>)
      requires Valid()
      requires Agrees(groups, FetchGroup(data.sysType, fuel))
      requires FetchTrunk(link.device, index, data.sysType, groups, fuel).outcome != Fail(Diverges)
      modifies this, link
      ensures Valid()
      ensures var s := FetchTrunk(old(link.device), index, old(data.sysType), groups, fuel);
              link.device == s.dev && link.log == old(link.log) + s.sent && r == s.outcome
              && Value() == Apply(old(Value()), s)
    {
      if data.sysType == "CNV" {
        ApplyPlain(Value(), [], link.device, Pass);
        assert link.log == link.log + [];
        return Pass;
      }
      var res := link.Raw(Line(["TRN", index]));
      if res.Failure? {
        ApplyPlain(Value(), [Line(["TRN", index])], link.device, Fail(res.error));
        return Fail(res.error);
      }
      var p := ParseTrunk(res.value);
      if p.Failure? {
        ApplyPlain(Value(), [Line(["TRN", index])], link.device, Fail(p.error));
        return Fail(p.error);
      }
      trunk, trunkLinks := p.value.0, Some(p.value.1);
      ConcatAssoc(old(link.log), [Line(["TRN", index])], Walk(groups, link.device, p.value.1.tgidGrpHead, fuel).sent);
      ghost var visits;
      r, visits := WalkGroups(p.value.1.tgidGrpHead, groups, fuel);
      StoreNothing(sites);
    }

    /** QGL: the quick-lockout string, through `zero_to_head`. */
    method GetQuickLockout() returns (r: Outcome<Error>)
      modifies this, link
      ensures groups == old(groups) && sites == old(sites)
      ensures var s := FetchQuickLockout(old(link.device), index);
              link.device == s.dev && link.log == old(link.log) + s.sent && r == s.outcome
              && Value() == Apply(old(Value()), s)
    {
      var res := RawSecond(link, Line(["QGL", index]));
      if res.Failure? {
        ApplyPlain(Value(), [Line(["QGL", index])], link.device, Fail(res.error));
        return Fail(res.error);
      }
      quickLockout := ZeroToHead(res.value);
      StoreNothing(groups);
      StoreNothing(sites);
      r := Pass;
    }

    /** `System.get_lockout_tgids`: poll GLI, then SLI, each until the token
        reads as -1; each tuple is replaced once its poll has ended. */
    method GetLockoutTgids(ghost fuel: nat) returns (r: Outcome<Error>)
      requires FetchLockouts(link.device, index, fuel).outcome != Fail(Diverges)
      modifies this, link
      ensures groups == old(groups) && sites == old(sites)
      ensures var s := FetchLockouts(old(link.device), index, fuel);
              link.device == s.dev && link.log == old(link.log) + s.sent && r == s.outcome
              && Value() == Apply(old(Value()), s)
    {
      var tokens;
      r, tokens := PollTokens(link, Line(["GLI", index]), fuel);
      if r.Fail? {
        ApplyPlain(Value(), Poll(old(link.device), Line(["GLI", index]), fuel).sent, link.device, r);
        return r;
      }
      loutTgids := tokens;
      ghost var sent1 := Poll(old(link.device), Line(["GLI", index]), fuel).sent;
      ghost var d1 := link.device;
      r, tokens := PollTokens(link, Line(["SLI", index]), fuel);
      ConcatAssoc(old(link.log), sent1, Poll(d1, Line(["SLI", index]), fuel).sent);
      if r.Pass? {
        srchLoutTgids := tokens;
      }
      StoreNothing(groups);
      StoreNothing(sites);
    }

    /** QGL, then the polls. */
    method GetTail(ghost fuel: nat) returns (r: Outcome<Error>)
      requires FetchTail(link.device, index, fuel).outcome != Fail(Diverges)
      modifies this, link
      ensures groups == old(groups) && sites == old(sites)
      ensures var s := FetchTail(old(link.device), index, fuel);
              link.device == s.dev && link.log == old(link.log) + s.sent && r == s.outcome
              && Value() == Apply(old(Value()), s)
    {
      ghost var q := FetchQuickLockout(link.device, index);
      r := GetQuickLockout();
      if r.Fail? {
        return r;
      }
      ghost var l := FetchLockouts(link.device, index, fuel);
      r := GetLockoutTgids(fuel);
      ApplyJoin(old(Value()), q, l);
      ConcatAssoc(old(link.log), q.sent, l.sent);
    }

    /** What follows the first walk. */
    method GetAfterChain(ghost groups: GroupFetcher, ghost fuel: nat) returns (r: Outcome<Error>)
      requires Valid()
      requires Agrees(groups, FetchGroup(data.sysType, fuel))
      requires FetchAfterChain(link.device, index, data.sysType, groups, fuel).outcome != Fail(Diverges)
      modifies this, link
      ensures Valid()
      ensures var s := FetchAfterChain(old(link.device), index, old(data.sysType), groups, fuel);
              link.device == s.dev && link.log == old(link.log) + s.sent && r == s.outcome
              && Value() == Apply(old(Value()), s)
    {
      ghost var t := FetchTrunk(link.device, index, data.sysType, groups, fuel);
      r := GetTrunk(groups, fuel);
      if r.Fail? {
        return r;
      }
      ghost var l := FetchTail(link.device, index, fuel);
      r := GetTail(fuel);
      ApplyJoin(old(Value()), t, l);
      ConcatAssoc(old(link.log), t.sent, l.sent);
    }

    /** What follows SIN. */
    method GetRest(head: string, ghost groups: GroupFetcher, ghost sites: SiteFetcher, ghost fuel: nat)
      returns (r: Outcome<Error>)
      requires Valid()
      requires Agrees(groups, FetchGroup(data.sysType, fuel)) && Agrees(sites, FetchSite(fuel))
      requires FetchSystemRest(link.device, index, data.sysType, head, groups, sites, fuel).outcome != Fail(Diverges)
      modifies this, link
      ensures Valid()
      ensures var s := FetchSystemRest(old(link.device), index, old(data.sysType), head, groups, sites, fuel);
              link.device == s.dev && link.log == old(link.log) + s.sent && r == s.outcome
              && Value() == Apply(old(Value()), s)
    {
      ghost var c := FetchChain(link.device, data.sysType, head, groups, sites, fuel);
      r := GetChain(head, groups, sites, fuel);
      if r.Fail? {
        return r;
      }
      ghost var l := FetchAfterChain(link.device, index, data.sysType, groups, fuel);
      r := GetAfterChain(groups, fuel);
      ApplyJoin(old(Value()), c, l);
      ConcatAssoc(old(link.log), c.sent, l.sent);
    }

    /** SIN: the system's fields and links are replaced once the reply has
        been unpacked. */
    method GetSystemRecord() returns (r: Outcome<Error>)
      modifies this, link
      ensures groups == old(groups) && sites == old(sites)
      ensures var s := FetchSystemRecord(old(link.device), index);
              link.device == s.dev && link.log == old(link.log) + s.sent && r == s.outcome
              && Value() == Apply(old(Value()), s)
    {
      var res := link.Raw(Line(["SIN", index]));
      if res.Failure? {
        ApplyPlain(Value(), [Line(["SIN", index])], link.device, Fail(res.error));
        return Fail(res.error);
      }
      var p := ParseSystem(res.value);
      if p.Failure? {
        ApplyPlain(Value(), [Line(["SIN", index])], link.device, Fail(p.error));
        return Fail(p.error);
      }
      data, links := p.value.0, Some(p.value.1);
      StoreNothing(groups);
      StoreNothing(sites);
      r := Pass;
    }

    /** `System.get_data`: `Pass` stands for its `return 1`. Whatever was
        read before an error stays. */
    method GetData(ghost fuel: nat) returns (r: Outcome<Error>)
      requires Valid()
      requires FetchSystemParts(link.device, index, fuel).outcome != Fail(Diverges)
      modifies this, link
      ensures Valid()
      ensures var s := FetchSystemParts(old(link.device), index, fuel);
              link.device == s.dev && link.log == old(link.log) + s.sent && r == s.outcome
              && Value() == Apply(old(Value()), s)
    {
      ghost var a := FetchSystemRecord(link.device, index);
      r := GetSystemRecord();
      if r.Fail? {
        return r;
      }
      ghost var l := FetchSystemRest(link.device, index, data.sysType, links.value.chnGrpHead,
                                     FetchGroup(data.sysType, fuel), FetchSite(fuel), fuel);
      r := GetRest(links.value.chnGrpHead, FetchGroup(data.sysType, fuel), FetchSite(fuel), fuel);
      ApplyJoin(old(Value()), a, l);
      ConcatAssoc(old(link.log), a.sent, l.sent);
    }

    /** `System.set_data`: SIN, the groups' set commands, for a system that
        is not CNV TRN and the sites' set commands, and QGL. Any error
        raised ends the run. Each dictionary goes in some order of its keys. */
    method SetData()
      returns (r: Outcome<Error>, gorder: seq<string>, corders: seq<seq<string>>, torders: seq<seq<string>>,
               sorder: seq<string>, forders: seq<seq<string>>)
      modifies link
      ensures GroupOrdersListed(groups, gorder, corders, torders) && SiteOrdersListed(sites, sorder, forders)
      ensures var s := Transmit(old(link.device), SystemLines(Value(), gorder, corders, torders, sorder, forders));
              link.device == s.dev && link.log == old(link.log) + s.sent && r == s.outcome
    {
      gorder, corders, torders := GroupOrders(groups);
      sorder, forders := SiteOrders(sites);
      r := link.Send(SystemLines(Value(), gorder, corders, torders, sorder, forders));
    }

    /** `System.append_site`: AST with the system's index and an empty
        field, then a default site under the index the reply names. */
    method AppendSite() returns (r: Result<string, Error>)
      requires Valid()
      modifies this, link
      ensures Valid()
      ensures var x := Ask(old(link.device), Line(["AST", index, ""]));
              link.device == x.dev && link.log == old(link.log) + x.sent && r == Appended(x.result)
      ensures r.Success? ==> sites == old(sites)[r.value := SiteInit(r.value)]
      ensures r.Failure? ==> sites == old(sites)
      ensures Value() == old(Value()).(sites := sites)
    {
      var res := link.Raw(Line(["AST", index, ""]));
      r := Appended(res);
      if r.Success? {
        var s := new Site(link, r.value);
        sites := sites[r.value := s.Value()];
      }
    }

    /** `System.delete_site`: DGR with the site's index, then the entry
        under `key` is removed. */
    method DeleteSite(key: string) returns (r: Outcome<Error>)
      requires Valid()
      modifies this, link
      ensures Valid()
      ensures var x := Ask(old(link.device), Line(["DGR", key]));
              link.device == x.dev && link.log == old(link.log) + x.sent
              && r == Deleted(x.result, key, old(sites).Keys)
      ensures sites == if r.Pass? then old(sites) - {key} else old(sites)
      ensures Value() == old(Value()).(sites := sites)
    {
      var res := link.Raw(Line(["DGR", key]));
      r := Deleted(res, key, sites.Keys);
      if r.Pass? {
        sites := sites - {key};
      }
    }

    /** `System.append_group`: AGC for type C, AGT for type T, and for any
        other type the empty command; then a default group of the system's
        type under the index the reply names. */
    method AppendGroup(grpType: string) returns (r: Result<string, Error>)
      requires Valid()
      modifies this, link
      ensures Valid()
      ensures var cmd := if grpType == "C" then Line(["AGC", index])
                         else if grpType == "T" then Line(["AGT", index]) else "";
              var x := Ask(old(link.device), cmd);
              link.device == x.dev && link.log == old(link.log) + x.sent && r == Appended(x.result)
      ensures r.Success? ==>
                groups == old(groups)[r.value := GroupValue(r.value, data.sysType, GroupDefaults, None, map[], map[])]
      ensures r.Failure? ==> groups == old(groups)
      ensures Value() == old(Value()).(groups := groups)
    {
      var cmd := "";
      if grpType == "C" {
        cmd := Line(["AGC", index]);
      }
      if grpType == "T" {
        cmd := Line(["AGT", index]);
      }
      var res := link.Raw(cmd);
      r := Appended(res);
      if r.Success? {
        var g := new Group(link, r.value, data.sysType);
        groups := groups[r.value := g.Value()];
      }
    }

    /** `System.delete_group`: DGR, then the entry under `key` is removed. */
    method DeleteGroup(key: string) returns (r: Outcome<Error>)
      requires Valid()
      modifies this, link
      ensures Valid()
      ensures var x := Ask(old(link.device), Line(["DGR", key]));
              link.device == x.dev && link.log == old(link.log) + x.sent
              && r == Deleted(x.result, key, old(groups).Keys)
      ensures groups == if r.Pass? then old(groups) - {key} else old(groups)
      ensures Value() == old(Value()).(groups := groups)
    {
      var res := link.Raw(Line(["DGR", key]));
      r := Deleted(res, key, groups.Keys);
      if r.Pass? {
        groups := groups - {key};
      }
    }
  }
}
