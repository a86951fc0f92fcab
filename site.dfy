/** `Site` in `pyuniden/other_classes.py`: a site of a trunked system,
    fetched with SIF, a walk of its trunk-frequency chain, MCP (the Motorola
    custom band plan) and ABP (the P25 band plan); written back by its SIF
    set command followed by those of its trunk frequencies. */
module Sites {
  import opened Wrappers
  import opened Wire
  import opened Errors
  import opened Protocol
  import opened Records
  import opened Chains
  import opened Leaves

  /** The band plans are `None` until fetched, as the empty dictionaries of
      `Site.__init__`. */
  datatype SiteValue = SiteValue(
    index: string, data: SiteData, links: Option<ChainLinks>,
    trunkFrqs: map<string, TrunkFrequencyValue>, bandPlan: Option<BandPlan>, p25Plan: Option<P25Plan>)

  /** What `Site.get_data` did: commands, device, outcome, the SIF reply it
      unpacked, the trunk frequencies the walk stored and the plans it
      unpacked, each if it got that far. */
  datatype SiteFetch = SiteFetch(
    sent: seq<string>, dev: Device, outcome: Outcome<Error>,
    parsed: Option<(SiteData, ChainLinks)>, trunkFrqs: seq<Visit<TrunkFrequencyValue>>,
    bandPlan: Option<BandPlan>, p25Plan: Option<P25Plan>)

  /** MCP, then ABP: each plan is stored once its reply has been unpacked. */
  function FetchPlans(dev: Device, index: string): (s: SiteFetch)
    ensures s.parsed == None && s.trunkFrqs == []
    ensures s.p25Plan.Some? ==> s.bandPlan.Some?
    ensures s.outcome.Pass? <==> s.p25Plan.Some?
  {
    var x := Ask(dev, Line(["MCP", index]));
    if x.result.Failure? then SiteFetch(x.sent, x.dev, Fail(x.result.error), None, [], None, None)
    else match ParseBandPlan(x.result.value)
    case Failure(e) => SiteFetch(x.sent, x.dev, Fail(e), None, [], None, None)
    case Success(bp) =>
      var y := Ask(x.dev, Line(["ABP", index]));
      if y.result.Failure? then SiteFetch(x.sent + y.sent, y.dev, Fail(y.result.error), None, [], Some(bp), None)
      else match ParseP25Plan(y.result.value)
      case Failure(e) => SiteFetch(x.sent + y.sent, y.dev, Fail(e), None, [], Some(bp), None)
      case Success(pp) => SiteFetch(x.sent + y.sent, y.dev, Pass, None, [], Some(bp), Some(pp))
  }

  /** `Site.get_data`: SIF, the trunk-frequency walk from the site's channel
      head, then the two plans. An error ends it where it is raised. */
  function FetchSiteParts(dev: Device, index: string, fuel: nat): (s: SiteFetch)
    ensures s.outcome.Pass? ==> s.parsed.Some? && s.bandPlan.Some? && s.p25Plan.Some?
    ensures s.parsed.None? ==> s.sent == [Line(["SIF", index])] && s.trunkFrqs == [] && s.bandPlan.None?
  {
    var x := Ask(dev, Line(["SIF", index]));
    if x.result.Failure? then SiteFetch(x.sent, x.dev, Fail(x.result.error), None, [], None, None)
    else match ParseSite(x.result.value)
    case Failure(e) => SiteFetch(x.sent, x.dev, Fail(e), None, [], None, None)
    case Success(p) =>
      var s := FetchSiteRest(x.dev, index, p.1.head, fuel);
      SiteFetch(x.sent + s.sent, s.dev, s.outcome, Some(p), s.trunkFrqs, s.bandPlan, s.p25Plan)
  }

  type TrunkFrequencyFetcher = (Device, string) -> Fetched<TrunkFrequencyValue>

  /** What follows SIF: the walk from the site's channel head, then, if it
      ends normally, the plans. */
  function FetchSiteRest(dev: Device, index: string, head: string, fuel: nat): (s: SiteFetch)
    ensures s.parsed == None
    ensures s.outcome.Pass? ==> s.bandPlan.Some? && s.p25Plan.Some?
  {
    var w := Walk(FetchTrunkFrequency, dev, head, fuel);
    if w.outcome.Fail? then SiteFetch(w.sent, w.dev, w.outcome, None, w.visits, None, None)
    else
      var pl := FetchPlans(w.dev, index);
      SiteFetch(w.sent + pl.sent, pl.dev, pl.outcome, None, w.visits, pl.bandPlan, pl.p25Plan)
  }

  /** A site made fresh and fetched, as a system's walk stores it. */
  function FetchSite(fuel: nat): (Device, string) -> Fetched<SiteValue>
  {
    (dev: Device, index: string) =>
      var s := FetchSiteParts(dev, index, fuel);
      Fetched(s.sent, s.dev,
              if s.outcome.Fail? then Failure(s.outcome.error)
              else Success((SiteValue(index, s.parsed.value.0, Some(s.parsed.value.1),
                                      Stored(s.trunkFrqs), s.bandPlan, s.p25Plan),
                            s.parsed.value.1.fwd)))
  }

  /** More fuel changes nothing in a site's `get_data` that ended within its
      bound. */
  lemma FetchSitePartsFuel(dev: Device, index: string, fuel: nat, more: nat)
    requires FetchSiteParts(dev, index, fuel).outcome != Fail(Diverges)
    requires fuel <= more
    ensures FetchSiteParts(dev, index, more) == FetchSiteParts(dev, index, fuel)
  {
    var x := Ask(dev, Line(["SIF", index]));
    if x.result.Success? && ParseSite(x.result.value).Success? {
      var head := ParseSite(x.result.value).value.1.head;
      WalkFuelIrrelevant(FetchTrunkFrequency, x.dev, head, fuel, more);
    }
  }

  /** A site fetch handed a larger bound extends the one with the smaller. */
  lemma FetchSiteFuel(fuel: nat, more: nat)
    requires fuel <= more
    ensures Extends(FetchSite(fuel), FetchSite(more))
  {
    forall d: Device, i: string | FetchSite(fuel)(d, i).result != Failure(Diverges)
      ensures FetchSite(more)(d, i) == FetchSite(fuel)(d, i)
    {
      FetchSitePartsFuel(d, i, fuel, more);
    }
  }

  function SiteIndex(s: SiteValue): string { s.index }

  function TrunkFrequencyLines(m: map<string, TrunkFrequencyValue>, order: seq<string>): (r: seq<string>)
    requires forall k :: k in order ==> k in m
    ensures |r| == |order|
    ensures forall i :: 0 <= i < |order| ==> r[i] == TrunkFrequencySet(m[order[i]].index, m[order[i]].data)
  {
    if |order| == 0 then []
    else [TrunkFrequencySet(m[order[0]].index, m[order[0]].data)] + TrunkFrequencyLines(m, order[1..])
  }

  /** What `Site.set_data` sends: the SIF line, then every trunk frequency's
      line. The band plans are not written back. */
  function SiteLines(index: string, data: SiteData, trunkFrqs: map<string, TrunkFrequencyValue>,
                     order: seq<string>): seq<string>
    requires forall k :: k in order ==> k in trunkFrqs
  {
    [SiteSet(index, data)] + TrunkFrequencyLines(trunkFrqs, order)
  }

  class Site {
    const link: Link
    const index: string
    var data: SiteData
    var links: Option<ChainLinks>
    var trunkFrqs: map<string, TrunkFrequencyValue>
    var bandPlan: Option<BandPlan>
    var p25Plan: Option<P25Plan>

    /** Every trunk frequency sits under its own index. */
    ghost predicate Valid()
      reads this
    {
      Keyed(trunkFrqs, TrunkFrequencyIndex)
    }

    function Value(): SiteValue
      reads this
    {
      SiteValue(index, data, links, trunkFrqs, bandPlan, p25Plan)
    }

    /** `Site.__init__`. */
    constructor (link: Link, index: string)
      ensures this.link == link && this.index == index
      ensures Valid()
      ensures Value() == SiteValue(index, SiteDefaults, None, map[], None, None)
    {
      this.link := link;
      this.index := index;
      data := SiteDefaults;
      links := None;
      trunkFrqs := map[];
      bandPlan := None;
      p25Plan := None;
    }

    /** Fetch the trunk frequency at `idx` into a new TrunkFrequency object and, if that
        succeeds, store its value under `idx`. */
    method AddTrunkFrequency(idx: string, ghost fetch: TrunkFrequencyFetcher)
      returns (r: Outcome<Error>, next: string, ghost fc: Fetched<TrunkFrequencyValue>)
      requires Agrees(fetch, FetchTrunkFrequency)
      modifies this, link
      ensures fc == fetch(old(link.device), idx)
      ensures link.device == fc.dev && link.log == old(link.log) + fc.sent
      ensures fc.result.Success? ==>
                r == Pass && next == fc.result.value.1 && trunkFrqs == old(trunkFrqs)[idx := fc.result.value.0]
      ensures fc.result.Failure? ==> r == Fail(fc.result.error) && trunkFrqs == old(trunkFrqs)
      ensures data == old(data) && links == old(links) && bandPlan == old(bandPlan) && p25Plan == old(p25Plan)
    {
      ghost var spec: TrunkFrequencyFetcher := FetchTrunkFrequency;
      fc := spec(link.device, idx);
      var c := new TrunkFrequency(link, idx);
      r := c.GetData();
      if r.Fail? {
        return r, idx, fc;
      }
      next := c.links.value.fwd;
      trunkFrqs := trunkFrqs[idx := c.Value()];
    }

    /** Step `idx` of the trunk frequency walk over `fetch`, which agrees with
        the trunk frequency fetch. */
    method StepTrunkFrequency(ghost fetch: TrunkFrequencyFetcher, idx: string,
                   ghost whole: Walked<TrunkFrequencyValue>, ghost sent: seq<string>,
                   ghost visits: seq<Visit<TrunkFrequencyValue>>, ghost f: nat,
                   ghost log0: seq<string>, ghost map0: map<string, TrunkFrequencyValue>)
      returns (r: Outcome<Error>, next: string, ghost sent': seq<string>, ghost visits': seq<Visit<TrunkFrequencyValue>>)
      requires Agrees(fetch, FetchTrunkFrequency)
      requires WalkAt(fetch, whole, sent, visits, link.device, idx, f)
      requires ParseInt(idx).Some? && !IsEnd(idx) && whole.outcome != Fail(Diverges)
      requires link.log == log0 + sent && trunkFrqs == map0 + Stored(visits)
      modifies this, link
      ensures data == old(data) && links == old(links) && bandPlan == old(bandPlan) && p25Plan == old(p25Plan)
      ensures link.log == log0 + sent'
      ensures r.Pass? ==>
                f > 0 && trunkFrqs == map0 + Stored(visits')
                && WalkAt(fetch, whole, sent', visits', link.device, next, f - 1)
      ensures r.Fail? ==> trunkFrqs == map0 + Stored(visits) && whole == Walked(sent', link.device, visits, r)
    {
      WalkAtBounded(fetch, whole, sent, visits, link.device, idx, f);
      ghost var fc;
      r, next, fc := AddTrunkFrequency(idx, fetch);
      WalkAtNext(fetch, whole, sent, visits, old(link.device), idx, f, fc);
      sent' := sent + fc.sent;
      assert log0 + sent' == (log0 + sent) + fc.sent;
      if r.Fail? {
        return r, idx, sent', visits;
      }
      ghost var vis := Visit(idx, fc.result.value.0, fc.result.value.1);
      StoreOneMore(map0, visits, vis);
      visits' := visits + [vis];
    }

    /** The trunk frequency walk of `get_data`: from `head`, fetch a trunk frequency, store
        it under its index and move to its forward index, until -1. */
    method WalkTrunkFrequencies(head: string, ghost fetch: TrunkFrequencyFetcher, ghost fuel: nat)
      returns (r: Outcome<Error>, ghost visits: seq<Visit<TrunkFrequencyValue>>)
      requires Agrees(fetch, FetchTrunkFrequency)
      requires Walk(fetch, link.device, head, fuel).outcome != Fail(Diverges)
      modifies this, link
      ensures var w := Walk(fetch, old(link.device), head, fuel);
              link.device == w.dev && link.log == old(link.log) + w.sent
              && r == w.outcome && visits == w.visits
      ensures trunkFrqs == old(trunkFrqs) + Stored(visits)
      ensures data == old(data) && links == old(links) && bandPlan == old(bandPlan) && p25Plan == old(p25Plan)
    {
      ghost var whole := Walk(fetch, link.device, head, fuel);
      WalkAtStart(fetch, link.device, head, fuel);
      ghost var sent: seq<string> := [];
      ghost var f := fuel;
      visits := [];
      var idx := head;
      while true
        invariant WalkAt(fetch, whole, sent, visits, link.device, idx, f)
        invariant link.log == old(link.log) + sent
        invariant trunkFrqs == old(trunkFrqs) + Stored(visits)
        invariant data == old(data) && links == old(links) && bandPlan == old(bandPlan) && p25Plan == old(p25Plan)
        decreases f
      {
        var n := ParseInt(idx);
        if n.None? || n.value == -1 {
          WalkAtEnd(fetch, whole, sent, visits, link.device, idx, f);
          return if n.None? then Fail(IntError(idx)) else Pass, visits;
        }
        var res, next, sent', visits' := StepTrunkFrequency(fetch, idx, whole, sent, visits, f,
                                                 old(link.log), old(trunkFrqs));
        if res.Fail? {
          return res, visits;
        }
        sent, visits, idx, f := sent', visits', next, f - 1;
      }
    }

    /** The MCP and ABP part of `get_data`. */
    method GetPlans() returns (r: Outcome<Error>)
      modifies this, link
      ensures var s := FetchPlans(old(link.device), index);
              link.device == s.dev && link.log == old(link.log) + s.sent && r == s.outcome
              && bandPlan == (if s.bandPlan.Some? then s.bandPlan else old(bandPlan))
              && p25Plan == (if s.p25Plan.Some? then s.p25Plan else old(p25Plan))
      ensures data == old(data) && links == old(links) && trunkFrqs == old(trunkFrqs)
    {
      var res := link.Raw(Line(["MCP", index]));
      if res.Failure? {
        return Fail(res.error);
      }
      var bp := ParseBandPlan(res.value);
      if bp.Failure? {
        return Fail(bp.error);
      }
      bandPlan := Some(bp.value);
      res := link.Raw(Line(["ABP", index]));
      if res.Failure? {
        return Fail(res.error);
      }
      var pp := ParseP25Plan(res.value);
      if pp.Failure? {
        return Fail(pp.error);
      }
      p25Plan := Some(pp.value);
      r := Pass;
    }

    /** The part of `get_data` that follows SIF. */
    method GetRest(head: string, ghost fuel: nat) returns (r: Outcome<Error>)
      requires Valid()
      requires FetchSiteRest(link.device, index, head, fuel).outcome != Fail(Diverges)
      modifies this, link
      ensures Valid()
      ensures var s := FetchSiteRest(old(link.device), index, head, fuel);
              link.device == s.dev && link.log == old(link.log) + s.sent && r == s.outcome
              && trunkFrqs == old(trunkFrqs) + Stored(s.trunkFrqs)
              && bandPlan == (if s.bandPlan.Some? then s.bandPlan else old(bandPlan))
              && p25Plan == (if s.p25Plan.Some? then s.p25Plan else old(p25Plan))
      ensures data == old(data) && links == old(links)
    {
      ghost var before := trunkFrqs;
      ghost var visits;
      WalkKeyed(FetchTrunkFrequency, TrunkFrequencyIndex, link.device, head, fuel);
      r, visits := WalkTrunkFrequencies(head, FetchTrunkFrequency, fuel);
      StoredKeyed(before, visits, TrunkFrequencyIndex);
      if r.Fail? {
        return r;
      }
      ConcatAssoc(old(link.log), Walk(FetchTrunkFrequency, old(link.device), head, fuel).sent,
                  FetchPlans(link.device, index).sent);
      r := GetPlans();
    }

    /** `Site.get_data`. Each part is stored once it has been unpacked; the
        trunk frequencies fetched before an error stay stored. */
    method GetData(ghost fuel: nat) returns (r: Outcome<Error>)
      requires Valid()
      requires FetchSiteParts(link.device, index, fuel).outcome != Fail(Diverges)
      modifies this, link
      ensures Valid()
      ensures var s := FetchSiteParts(old(link.device), index, fuel);
              link.device == s.dev && link.log == old(link.log) + s.sent && r == s.outcome
              && (s.parsed.Some? ==> data == s.parsed.value.0 && links == Some(s.parsed.value.1))
              && (s.parsed.None? ==> data == old(data) && links == old(links))
              && trunkFrqs == old(trunkFrqs) + Stored(s.trunkFrqs)
              && bandPlan == (if s.bandPlan.Some? then s.bandPlan else old(bandPlan))
              && p25Plan == (if s.p25Plan.Some? then s.p25Plan else old(p25Plan))
    {
      var res := link.Raw(Line(["SIF", index]));
      if res.Failure? {
        StoreNothing(trunkFrqs);
        return Fail(res.error);
      }
      var p := ParseSite(res.value);
      if p.Failure? {
        StoreNothing(trunkFrqs);
        return Fail(p.error);
      }
      data, links := p.value.0, Some(p.value.1);
      ConcatAssoc(old(link.log), [Line(["SIF", index])], FetchSiteRest(link.device, index, p.value.1.head, fuel).sent);
      r := GetRest(p.value.1.head, fuel);
    }

    /** `Site.set_data`: the SIF line, then every trunk frequency's set
        command. Any error raised ends the run. */
    method SetData() returns (r: Outcome<Error>, order: seq<string>)
      modifies link
      ensures ListsKeys(order, trunkFrqs)
      ensures var s := Transmit(old(link.device), SiteLines(index, data, trunkFrqs, order));
              link.device == s.dev && link.log == old(link.log) + s.sent && r == s.outcome
    {
      order := KeyOrder(trunkFrqs);
      r := link.Send(SiteLines(index, data, trunkFrqs, order));
    }

    /** `Site.append_trunk_frq`: ACC with the site's index, then a default
        trunk frequency under the index the reply names. */
    method AppendTrunkFrequency() returns (r: Result<string, Error>)
      requires Valid()
      modifies this, link
      ensures Valid()
      ensures var x := Ask(old(link.device), Line(["ACC", index]));
              link.device == x.dev && link.log == old(link.log) + x.sent && r == Appended(x.result)
      ensures r.Success? ==>
                trunkFrqs == old(trunkFrqs)[r.value := TrunkFrequencyValue(r.value, TrunkFrequencyDefaults, None)]
      ensures r.Failure? ==> trunkFrqs == old(trunkFrqs)
      ensures data == old(data) && links == old(links) && bandPlan == old(bandPlan) && p25Plan == old(p25Plan)
    {
      var res := link.Raw(Line(["ACC", index]));
      r := Appended(res);
      if r.Success? {
        var t := new TrunkFrequency(link, r.value);
        trunkFrqs := trunkFrqs[r.value := t.Value()];
      }
    }

    /** `Site.delete_trunk_frq`: DCH, then the entry under `key` is removed. */
    method DeleteTrunkFrequency(key: string) returns (r: Outcome<Error>)
      requires Valid()
      modifies this, link
      ensures Valid()
      ensures var x := Ask(old(link.device), Line(["DCH", key]));
              link.device == x.dev && link.log == old(link.log) + x.sent
              && r == Deleted(x.result, key, old(trunkFrqs).Keys)
      ensures trunkFrqs == if r.Pass? then old(trunkFrqs) - {key} else old(trunkFrqs)
      ensures data == old(data) && links == old(links) && bandPlan == old(bandPlan) && p25Plan == old(p25Plan)
    {
      var res := link.Raw(Line(["DCH", key]));
      r := Deleted(res, key, trunkFrqs.Keys);
      if r.Pass? {
        trunkFrqs := trunkFrqs - {key};
      }
    }
  }
}
