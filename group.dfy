/** `Group` in `pyuniden/other_classes.py`: a group of a system, fetched with
    GIN followed by a walk of its channel chain, written back by its own GIN
    set command followed by those of its children.

    The group keeps each child's value (index, fields and links) in a
    dictionary under the child's index; the child objects the source keeps
    there are made, fetched and read off one at a time. */
module Groups {
  import opened Wrappers
  import opened Wire
  import opened Errors
  import opened Protocol
  import opened Records
  import opened Chains
  import opened Leaves

  datatype GroupValue = GroupValue(
    index: string, sysType: string, data: GroupData, links: Option<ChainLinks>,
    channels: map<string, ChannelValue>, tgids: map<string, TalkGroupValue>)

  function GroupIndex(g: GroupValue): string { g.index }

  /** What `Group.get_data` did: commands, device, outcome, the reply it
      unpacked (if it got that far) and what each walk stored. */
  datatype GroupFetch = GroupFetch(
    sent: seq<string>, dev: Device, outcome: Outcome<Error>,
    parsed: Option<(GroupData, ChainLinks)>,
    channels: seq<Visit<ChannelValue>>, tgids: seq<Visit<TalkGroupValue>>)

  /** `Group.get_data`: GIN, then a walk from the channel head. The children
      are channels when the system type handed to the group is CNV and talk
      groups otherwise; the group's own type plays no part. */
  function FetchGroupParts(dev: Device, index: string, sysType: string, fuel: nat): (g: GroupFetch)
    ensures g.outcome.Pass? ==> g.parsed.Some?
    ensures g.parsed.None? ==> g.sent == [Line(["GIN", index])] && g.channels == [] && g.tgids == []
    ensures sysType == "CNV" ==> g.tgids == []
    ensures sysType != "CNV" ==> g.channels == []
  {
    var x := Ask(dev, Line(["GIN", index]));
    match x.result
    case Failure(e) => GroupFetch(x.sent, x.dev, Fail(e), None, [], [])
    case Success(res) =>
      match ParseGroup(res)
      case Failure(e) => GroupFetch(x.sent, x.dev, Fail(e), None, [], [])
      case Success(p) =>
        var c := WalkChildren(x.dev, sysType, p.1.head, fuel);
        GroupFetch(x.sent + c.sent, c.dev, c.outcome, Some(p), c.channels, c.tgids)
  }

  type ChannelFetcher = (Device, string) -> Fetched<ChannelValue>
  type TalkGroupFetcher = (Device, string) -> Fetched<TalkGroupValue>

  /** The walk from a group's channel head. */
  function WalkChildren(dev: Device, sysType: string, head: string, fuel: nat): (c: GroupFetch)
    ensures c.parsed == None
    ensures sysType == "CNV" ==> c.tgids == []
    ensures sysType != "CNV" ==> c.channels == []
  {
    if sysType == "CNV" then
      var w := Walk(FetchChannel, dev, head, fuel);
      GroupFetch(w.sent, w.dev, w.outcome, None, w.visits, [])
    else
      var w := Walk(FetchTalkGroup, dev, head, fuel);
      GroupFetch(w.sent, w.dev, w.outcome, None, [], w.visits)
  }

  /** A group made fresh and fetched, as a system's walk stores it; `fuel`
      bounds the group's own channel walk. */
  function FetchGroup(sysType: string, fuel: nat): (Device, string) -> Fetched<GroupValue>
  {
    (dev: Device, index: string) =>
      var g := FetchGroupParts(dev, index, sysType, fuel);
      Fetched(g.sent, g.dev,
              if g.outcome.Fail? then Failure(g.outcome.error)
              else Success((GroupValue(index, sysType, g.parsed.value.0, Some(g.parsed.value.1),
                                       Stored(g.channels), Stored(g.tgids)),
                            g.parsed.value.1.fwd)))
  }

  /** More fuel changes nothing in a group's `get_data` that ended within its
      bound. */
  lemma FetchGroupPartsFuel(dev: Device, index: string, sysType: string, fuel: nat, more: nat)
    requires FetchGroupParts(dev, index, sysType, fuel).outcome != Fail(Diverges)
    requires fuel <= more
    ensures FetchGroupParts(dev, index, sysType, more) == FetchGroupParts(dev, index, sysType, fuel)
  {
    var x := Ask(dev, Line(["GIN", index]));
    if x.result.Success? && ParseGroup(x.result.value).Success? {
      var head := ParseGroup(x.result.value).value.1.head;
      if sysType == "CNV" {
        WalkFuelIrrelevant(FetchChannel, x.dev, head, fuel, more);
      } else {
        WalkFuelIrrelevant(FetchTalkGroup, x.dev, head, fuel, more);
      }
    }
  }

  /** A group fetch handed a larger bound extends the one with the smaller. */
  lemma FetchGroupFuel(sysType: string, fuel: nat, more: nat)
    requires fuel <= more
    ensures Extends(FetchGroup(sysType, fuel), FetchGroup(sysType, more))
  {
    forall d: Device, i: string | FetchGroup(sysType, fuel)(d, i).result != Failure(Diverges)
      ensures FetchGroup(sysType, more)(d, i) == FetchGroup(sysType, fuel)(d, i)
    {
      FetchGroupPartsFuel(d, i, sysType, fuel, more);
    }
  }

  /** The set commands of the children, in the order `order` lists them;
      each child sends its own index and fields. */
  function ChannelLines(m: map<string, ChannelValue>, order: seq<string>): (r: seq<string>)
    requires forall k :: k in order ==> k in m
    ensures |r| == |order|
    ensures forall i :: 0 <= i < |order| ==> r[i] == ChannelSet(m[order[i]].index, m[order[i]].data)
  {
    if |order| == 0 then [] else [ChannelSet(m[order[0]].index, m[order[0]].data)] + ChannelLines(m, order[1..])
  }

  function TalkGroupLines(m: map<string, TalkGroupValue>, order: seq<string>): (r: seq<string>)
    requires forall k :: k in order ==> k in m
    ensures |r| == |order|
    ensures forall i :: 0 <= i < |order| ==> r[i] == TalkGroupSet(m[order[i]].index, m[order[i]].data)
  {
    if |order| == 0 then [] else [TalkGroupSet(m[order[0]].index, m[order[0]].data)] + TalkGroupLines(m, order[1..])
  }

  /** What `Group.set_data` sends: the group's GIN line, then every channel's
      line, then every talk group's line, each dictionary in its own order. */
  function GroupLines(index: string, data: GroupData, channels: map<string, ChannelValue>,
                      tgids: map<string, TalkGroupValue>, corder: seq<string>, torder: seq<string>): seq<string>
    requires forall k :: k in corder ==> k in channels
    requires forall k :: k in torder ==> k in tgids
  {
    [GroupSet(index, data)] + ChannelLines(channels, corder) + TalkGroupLines(tgids, torder)
  }

  /** The keys of the dictionary `Group.dump` returns: eight fields, plus
      the channel list for a type C group or the talk-group list for a type
      T group (neither for any other type). */
  function GroupDumpKeys(grpType: string): (keys: set<string>)
    ensures "name" in keys && "type" in keys && "lockout" in keys
    ensures "channels" in keys <==> grpType == "C"
    ensures "tgids" in keys <==> grpType == "T"
  {
    var base := {"name", "quick_key", "lockout", "latitude", "longitude", "range", "gps", "type"};
    if grpType == "C" then base + {"channels"}
    else if grpType == "T" then base + {"tgids"}
    else base
  }

  class Group {
    const link: Link
    const index: string
    const sysType: string
    var data: GroupData
    var links: Option<ChainLinks>
    var channels: map<string, ChannelValue>
    var tgids: map<string, TalkGroupValue>

    /** Every child sits under its own index, as `channels[chn_index] = c`
        with `c = Channel(scanner, chn_index)` leaves it. */
    ghost predicate Valid()
      reads this
    {
      Keyed(channels, ChannelIndex) && Keyed(tgids, TalkGroupIndex)
    }

    function Value(): GroupValue
      reads this
    {
      GroupValue(index, sysType, data, links, channels, tgids)
    }

    /** `Group.__init__`: default fields, no links, no children. */
    constructor (link: Link, index: string, sysType: string)
      ensures this.link == link && this.index == index && this.sysType == sysType
      ensures Valid()
      ensures Value() == GroupValue(index, sysType, GroupDefaults, None, map[], map[])
    {
      this.link := link;
      this.index := index;
      this.sysType := sysType;
      data := GroupDefaults;
      links := None;
      channels := map[];
      tgids := map[];
    }

    /** Fetch the channel at `idx` into a new Channel object and, if that
        succeeds, store its value under `idx`. */
    method AddChannel(idx: string, ghost fetch: ChannelFetcher)
      returns (r: Outcome<Error>, next: string, ghost fc: Fetched<ChannelValue>)
      requires Agrees(fetch, FetchChannel)
      modifies this, link
      ensures fc == fetch(old(link.device), idx)
      ensures link.device == fc.dev && link.log == old(link.log) + fc.sent
      ensures fc.result.Success? ==>
                r == Pass && next == fc.result.value.1 && channels == old(channels)[idx := fc.result.value.0]
      ensures fc.result.Failure? ==> r == Fail(fc.result.error) && channels == old(channels)
      ensures data == old(data) && links == old(links) && tgids == old(tgids)
    {
      ghost var spec: ChannelFetcher := FetchChannel;
      fc := spec(link.device, idx);
      var c := new Channel(link, idx);
      r := c.GetData();
      if r.Fail? {
        return r, idx, fc;
      }
      next := c.links.value.fwd;
      channels := channels[idx := c.Value()];
    }

    /** Step `idx` of the channel walk over `fetch`, which agrees with
        the channel fetch. */
    method StepChannel(ghost fetch: ChannelFetcher, idx: string,
                   ghost whole: Walked<ChannelValue>, ghost sent: seq<string>,
                   ghost visits: seq<Visit<ChannelValue>>, ghost f: nat,
                   ghost log0: seq<string>, ghost map0: map<string, ChannelValue>)
      returns (r: Outcome<Error>, next: string, ghost sent': seq<string>, ghost visits': seq<Visit<ChannelValue>>)
      requires Agrees(fetch, FetchChannel)
      requires WalkAt(fetch, whole, sent, visits, link.device, idx, f)
      requires ParseInt(idx).Some? && !IsEnd(idx) && whole.outcome != Fail(Diverges)
      requires link.log == log0 + sent && channels == map0 + Stored(visits)
      modifies this, link
      ensures data == old(data) && links == old(links) && tgids == old(tgids)
      ensures link.log == log0 + sent'
      ensures r.Pass? ==>
                f > 0 && channels == map0 + Stored(visits')
                && WalkAt(fetch, whole, sent', visits', link.device, next, f - 1)
      ensures r.Fail? ==> channels == map0 + Stored(visits) && whole == Walked(sent', link.device, visits, r)
    {
      WalkAtBounded(fetch, whole, sent, visits, link.device, idx, f);
      ghost var fc;
      r, next, fc := AddChannel(idx, fetch);
      WalkAtNext(fetch, whole, sent, visits, old(link.device), idx, f, fc);
      sent' := sent + fc.sent;
      assert log0 + sent' == (log0 + sent) + fc.sent;
      if r.Fail? {
        return r, idx, sent', visits;
      }
      ghost var vis := Visit(idx, fc.result.value.0, fc.result.value.1);
      StoreOneMore(map0, visits, vis);
      visits' := visits + [vis];
    }

    /** The channel walk of `get_data`: from `head`, fetch a channel, store
        it under its index and move to its forward index, until -1. */
    method WalkChannels(head: string, ghost fetch: ChannelFetcher, ghost fuel: nat)
      returns (r: Outcome<Error>, ghost visits: seq<Visit<ChannelValue>>)
      requires Agrees(fetch, FetchChannel)
      requires Walk(fetch, link.device, head, fuel).outcome != Fail(Diverges)
      modifies this, link
      ensures var w := Walk(fetch, old(link.device), head, fuel);
              link.device == w.dev && link.log == old(link.log) + w.sent
              && r == w.outcome && visits == w.visits
      ensures channels == old(channels) + Stored(visits)
      ensures data == old(data) && links == old(links) && tgids == old(tgids)
    {
      ghost var whole := Walk(fetch, link.device, head, fuel);
      WalkAtStart(fetch, link.device, head, fuel);
      ghost var sent: seq<string> := [];
      ghost var f := fuel;
      visits := [];
      var idx := head;
      while true
        invariant WalkAt(fetch, whole, sent, visits, link.device, idx, f)
        invariant link.log == old(link.log) + sent
        invariant channels == old(channels) + Stored(visits)
        invariant data == old(data) && links == old(links) && tgids == old(tgids)
        decreases f
      {
        var n := ParseInt(idx);
        if n.None? || n.value == -1 {
          WalkAtEnd(fetch, whole, sent, visits, link.device, idx, f);
          return if n.None? then Fail(IntError(idx)) else Pass, visits;
        }
        var res, next, sent', visits' := StepChannel(fetch, idx, whole, sent, visits, f,
                                                 old(link.log), old(channels));
        if res.Fail? {
          return res, visits;
        }
        sent, visits, idx, f := sent', visits', next, f - 1;
      }
    }

    /** Fetch the talk group at `idx` into a new TalkGroupID object and, if that
        succeeds, store its value under `idx`. */
    method AddTalkGroup(idx: string, ghost fetch: TalkGroupFetcher)
      returns (r: Outcome<Error>, next: string, ghost fc: Fetched<TalkGroupValue>)
      requires Agrees(fetch, FetchTalkGroup)
      modifies this, link
      ensures fc == fetch(old(link.device), idx)
      ensures link.device == fc.dev && link.log == old(link.log) + fc.sent
      ensures fc.result.Success? ==>
                r == Pass && next == fc.result.value.1 && tgids == old(tgids)[idx := fc.result.value.0]
      ensures fc.result.Failure? ==> r == Fail(fc.result.error) && tgids == old(tgids)
      ensures data == old(data) && links == old(links) && channels == old(channels)
    {
      ghost var spec: TalkGroupFetcher := FetchTalkGroup;
      fc := spec(link.device, idx);
      var c := new TalkGroupID(link, idx);
      r := c.GetData();
      if r.Fail? {
        return r, idx, fc;
      }
      next := c.links.value.fwd;
      tgids := tgids[idx := c.Value()];
    }

    /** Step `idx` of the talk group walk over `fetch`, which agrees with
        the talk group fetch. */
    method StepTalkGroup(ghost fetch: TalkGroupFetcher, idx: string,
                   ghost whole: Walked<TalkGroupValue>, ghost sent: seq<string>,
                   ghost visits: seq<Visit<TalkGroupValue>>, ghost f: nat,
                   ghost log0: seq<string>, ghost map0: map<string, TalkGroupValue>)
      returns (r: Outcome<Error>, next: string, ghost sent': seq<string>, ghost visits': seq<Visit<TalkGroupValue>>)
      requires Agrees(fetch, FetchTalkGroup)
      requires WalkAt(fetch, whole, sent, visits, link.device, idx, f)
      requires ParseInt(idx).Some? && !IsEnd(idx) && whole.outcome != Fail(Diverges)
      requires link.log == log0 + sent && tgids == map0 + Stored(visits)
      modifies this, link
      ensures data == old(data) && links == old(links) && channels == old(channels)
      ensures link.log == log0 + sent'
      ensures r.Pass? ==>
                f > 0 && tgids == map0 + Stored(visits')
                && WalkAt(fetch, whole, sent', visits', link.device, next, f - 1)
      ensures r.Fail? ==> tgids == map0 + Stored(visits) && whole == Walked(sent', link.device, visits, r)
    {
      WalkAtBounded(fetch, whole, sent, visits, link.device, idx, f);
      ghost var fc;
      r, next, fc := AddTalkGroup(idx, fetch);
      WalkAtNext(fetch, whole, sent, visits, old(link.device), idx, f, fc);
      sent' := sent + fc.sent;
      assert log0 + sent' == (log0 + sent) + fc.sent;
      if r.Fail? {
        return r, idx, sent', visits;
      }
      ghost var vis := Visit(idx, fc.result.value.0, fc.result.value.1);
      StoreOneMore(map0, visits, vis);
      visits' := visits + [vis];
    }

    /** The talk group walk of `get_data`: from `head`, fetch a talk group, store
        it under its index and move to its forward index, until -1. */
    method WalkTalkGroups(head: string, ghost fetch: TalkGroupFetcher, ghost fuel: nat)
      returns (r: Outcome<Error>, ghost visits: seq<Visit<TalkGroupValue>>)
      requires Agrees(fetch, FetchTalkGroup)
      requires Walk(fetch, link.device, head, fuel).outcome != Fail(Diverges)
      modifies this, link
      ensures var w := Walk(fetch, old(link.device), head, fuel);
              link.device == w.dev && link.log == old(link.log) + w.sent
              && r == w.outcome && visits == w.visits
      ensures tgids == old(tgids) + Stored(visits)
      ensures data == old(data) && links == old(links) && channels == old(channels)
    {
      ghost var whole := Walk(fetch, link.device, head, fuel);
      WalkAtStart(fetch, link.device, head, fuel);
      ghost var sent: seq<string> := [];
      ghost var f := fuel;
      visits := [];
      var idx := head;
      while true
        invariant WalkAt(fetch, whole, sent, visits, link.device, idx, f)
        invariant link.log == old(link.log) + sent
        invariant tgids == old(tgids) + Stored(visits)
        invariant data == old(data) && links == old(links) && channels == old(channels)
        decreases f
      {
        var n := ParseInt(idx);
        if n.None? || n.value == -1 {
          WalkAtEnd(fetch, whole, sent, visits, link.device, idx, f);
          return if n.None? then Fail(IntError(idx)) else Pass, visits;
        }
        var res, next, sent', visits' := StepTalkGroup(fetch, idx, whole, sent, visits, f,
                                                 old(link.log), old(tgids));
        if res.Fail? {
          return res, visits;
        }
        sent, visits, idx, f := sent', visits', next, f - 1;
      }
    }

    /** The child walk of `get_data`, as `sys_type` selects it. */
    method GetChildren(head: string, ghost fuel: nat) returns (r: Outcome<Error>)
      requires Valid()
      requires WalkChildren(link.device, sysType, head, fuel).outcome != Fail(Diverges)
      modifies this, link
      ensures Valid()
      ensures var c := WalkChildren(old(link.device), sysType, head, fuel);
              link.device == c.dev && link.log == old(link.log) + c.sent && r == c.outcome
              && channels == old(channels) + Stored(c.channels)
              && tgids == old(tgids) + Stored(c.tgids)
      ensures data == old(data) && links == old(links)
    {
      if sysType == "CNV" {
        ghost var visits;
        WalkKeyed(FetchChannel, ChannelIndex, link.device, head, fuel);
        ghost var before := channels;
        r, visits := WalkChannels(head, FetchChannel, fuel);
        StoredKeyed(before, visits, ChannelIndex);
        StoreNothing(tgids);
      } else {
        ghost var visits;
        WalkKeyed(FetchTalkGroup, TalkGroupIndex, link.device, head, fuel);
        ghost var before := tgids;
        r, visits := WalkTalkGroups(head, FetchTalkGroup, fuel);
        StoredKeyed(before, visits, TalkGroupIndex);
        StoreNothing(channels);
      }
    }

    /** `Group.get_data`. The fields are replaced once the GIN reply has
        been unpacked; the children fetched before an error stay stored. */
    method GetData(ghost fuel: nat) returns (r: Outcome<Error>)
      requires Valid()
      requires FetchGroupParts(link.device, index, sysType, fuel).outcome != Fail(Diverges)
      modifies this, link
      ensures Valid()
      ensures var g := FetchGroupParts(old(link.device), index, sysType, fuel);
              link.device == g.dev && link.log == old(link.log) + g.sent && r == g.outcome
              && (g.parsed.Some? ==> data == g.parsed.value.0 && links == Some(g.parsed.value.1))
              && (g.parsed.None? ==> data == old(data) && links == old(links))
              && channels == old(channels) + Stored(g.channels)
              && tgids == old(tgids) + Stored(g.tgids)
    {
      var res := link.Raw(Line(["GIN", index]));
      if res.Failure? {
        StoreNothing(channels);
        StoreNothing(tgids);
        return Fail(res.error);
      }
      var p := ParseGroup(res.value);
      if p.Failure? {
        StoreNothing(channels);
        StoreNothing(tgids);
        return Fail(p.error);
      }
      data, links := p.value.0, Some(p.value.1);
      ConcatAssoc(old(link.log), [Line(["GIN", index])], WalkChildren(link.device, sysType, p.value.1.head, fuel).sent);
      r := GetChildren(p.value.1.head, fuel);
    }

    /** `Group.set_data`: the GIN line, then every child's set command. Any
        error raised ends the run. */
    method SetData() returns (r: Outcome<Error>, corder: seq<string>, torder: seq<string>)
      modifies link
      ensures ListsKeys(corder, channels) && ListsKeys(torder, tgids)
      ensures var s := Transmit(old(link.device), GroupLines(index, data, channels, tgids, corder, torder));
              link.device == s.dev && link.log == old(link.log) + s.sent && r == s.outcome
    {
      corder := KeyOrder(channels);
      torder := KeyOrder(tgids);
      r := link.Send(GroupLines(index, data, channels, tgids, corder, torder));
    }

    /** `Group.append_channel`: ACC, then a default channel under the index
        the reply names. */
    method AppendChannel() returns (r: Result<string, Error>)
      requires Valid()
      modifies this, link
      ensures Valid()
      ensures var x := Ask(old(link.device), Line(["ACC", index]));
              link.device == x.dev && link.log == old(link.log) + x.sent && r == Appended(x.result)
      ensures r.Success? ==> channels == old(channels)[r.value := ChannelValue(r.value, ChannelDefaults, None)]
      ensures r.Failure? ==> channels == old(channels)
      ensures data == old(data) && links == old(links) && tgids == old(tgids)
    {
      var res := link.Raw(Line(["ACC", index]));
      r := Appended(res);
      if r.Success? {
        var c := new Channel(link, r.value);
        channels := channels[r.value := c.Value()];
      }
    }

    /** `Group.append_tgid`: ACT, then a default talk group under the index
        the reply names. */
    method AppendTalkGroup() returns (r: Result<string, Error>)
      requires Valid()
      modifies this, link
      ensures Valid()
      ensures var x := Ask(old(link.device), Line(["ACT", index]));
              link.device == x.dev && link.log == old(link.log) + x.sent && r == Appended(x.result)
      ensures r.Success? ==> tgids == old(tgids)[r.value := TalkGroupValue(r.value, TalkGroupDefaults, None)]
      ensures r.Failure? ==> tgids == old(tgids)
      ensures data == old(data) && links == old(links) && channels == old(channels)
    {
      var res := link.Raw(Line(["ACT", index]));
      r := Appended(res);
      if r.Success? {
        var t := new TalkGroupID(link, r.value);
        tgids := tgids[r.value := t.Value()];
      }
    }

    /** `Group.delete_channel`: DCH, then the entry under `key` is removed. */
    method DeleteChannel(key: string) returns (r: Outcome<Error>)
      requires Valid()
      modifies this, link
      ensures Valid()
      ensures var x := Ask(old(link.device), Line(["DCH", key]));
              link.device == x.dev && link.log == old(link.log) + x.sent
              && r == Deleted(x.result, key, old(channels).Keys)
      ensures channels == if r.Pass? then old(channels) - {key} else old(channels)
      ensures data == old(data) && links == old(links) && tgids == old(tgids)
    {
      var res := link.Raw(Line(["DCH", key]));
      r := Deleted(res, key, channels.Keys);
      if r.Pass? {
        channels := channels - {key};
      }
    }

    /** `Group.delete_tgid`: the same DCH command, on the talk groups. */
    method DeleteTalkGroup(key: string) returns (r: Outcome<Error>)
      requires Valid()
      modifies this, link
      ensures Valid()
      ensures var x := Ask(old(link.device), Line(["DCH", key]));
              link.device == x.dev && link.log == old(link.log) + x.sent
              && r == Deleted(x.result, key, old(tgids).Keys)
      ensures tgids == if r.Pass? then old(tgids) - {key} else old(tgids)
      ensures data == old(data) && links == old(links) && channels == old(channels)
    {
      var res := link.Raw(Line(["DCH", key]));
      r := Deleted(res, key, tgids.Keys);
      if r.Pass? {
        tgids := tgids - {key};
      }
    }
  }
}
