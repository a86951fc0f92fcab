/** The leaf records of the memory tree (`Channel`, `TalkGroupID` and
    `TrunkFrequency` in `pyuniden/other_classes.py`): each is fetched with one
    read command and written back with one set command. */
module Leaves {
  import opened Wrappers
  import opened Errors
  import opened Protocol
  import opened Records
  import opened Chains

  // ---------------------------------------------------------------- Channel

  /** What a channel object holds: its index, its fields and its links (none
      until it has been fetched). */
  datatype ChannelValue = ChannelValue(index: string, data: ChannelData, links: Option<LeafLinks>)

  function ChannelIndex(c: ChannelValue): string { c.index }

  /** `Channel.get_data`: send `CIN,index`, unpack the 22-field reply. */
  function FetchChannel(dev: Device, index: string): (f: Fetched<ChannelValue>)
    ensures f.sent == [Line(["CIN", index])]
    ensures f.result.Success? ==>
              var res := Ask(dev, Line(["CIN", index])).result;
              res.Success? && ParseChannel(res.value).Success?
              && f.result.value.0 == ChannelValue(index, ParseChannel(res.value).value.0,
                                                  Some(ParseChannel(res.value).value.1))
              && f.result.value.1 == ParseChannel(res.value).value.1.fwd
  {
    var x := Ask(dev, Line(["CIN", index]));
    match x.result
    case Failure(e) => Fetched(x.sent, x.dev, Failure(e))
    case Success(res) =>
      match ParseChannel(res)
      case Failure(e) => Fetched(x.sent, x.dev, Failure(e))
      case Success(p) => Fetched(x.sent, x.dev, Success((ChannelValue(index, p.0, Some(p.1)), p.1.fwd)))
  }

  class Channel {
    const link: Link
    const index: string
    var data: ChannelData
    var links: Option<LeafLinks>

    function Value(): ChannelValue
      reads this
    {
      ChannelValue(index, data, links)
    }

    /** `Channel.__init__`: default fields, no links yet. */
    constructor (link: Link, index: string)
      ensures this.link == link && this.index == index
      ensures Value() == ChannelValue(index, ChannelDefaults, None)
    {
      this.link := link;
      this.index := index;
      data := ChannelDefaults;
      links := None;
    }

    /** `Channel.get_data`. On failure nothing in the object changes. */
    method GetData() returns (r: Outcome<Error>)
      modifies this, link
      ensures var f := FetchChannel(old(link.device), index);
              link.device == f.dev && link.log == old(link.log) + f.sent
              && (f.result.Success? ==> r == Pass && Value() == f.result.value.0)
              && (f.result.Failure? ==> r == Fail(f.result.error) && Value() == old(Value()))
    {
      var res := link.Raw(Line(["CIN", index]));
      if res.Failure? {
        return Fail(res.error);
      }
      var p := ParseChannel(res.value);
      if p.Failure? {
        return Fail(p.error);
      }
      data, links := p.value.0, Some(p.value.1);
      r := Pass;
    }

    /** `Channel.set_data`: one CIN set command. */
    method SetData() returns (r: Outcome<Error>)
      modifies link
      ensures var x := Ask(old(link.device), ChannelSet(index, data));
              link.device == x.dev && link.log == old(link.log) + x.sent
              && r == (if x.result.Success? then Pass else Fail(x.result.error))
    {
      var res := link.Raw(ChannelSet(index, data));
      r := if res.Success? then Pass else Fail(res.error);
    }
  }

  // ------------------------------------------------------------ TalkGroupID

  datatype TalkGroupValue = TalkGroupValue(index: string, data: TalkGroupData, links: Option<LeafLinks>)

  function TalkGroupIndex(t: TalkGroupValue): string { t.index }

  /** `TalkGroupID.get_data`: send `TIN,index`, unpack the 17-field reply. */
  function FetchTalkGroup(dev: Device, index: string): (f: Fetched<TalkGroupValue>)
    ensures f.sent == [Line(["TIN", index])]
    ensures f.result.Success? ==>
              var res := Ask(dev, Line(["TIN", index])).result;
              res.Success? && ParseTalkGroup(res.value).Success?
              && f.result.value.0 == TalkGroupValue(index, ParseTalkGroup(res.value).value.0,
                                                    Some(ParseTalkGroup(res.value).value.1))
              && f.result.value.1 == ParseTalkGroup(res.value).value.1.fwd
  {
    var x := Ask(dev, Line(["TIN", index]));
    match x.result
    case Failure(e) => Fetched(x.sent, x.dev, Failure(e))
    case Success(res) =>
      match ParseTalkGroup(res)
      case Failure(e) => Fetched(x.sent, x.dev, Failure(e))
      case Success(p) => Fetched(x.sent, x.dev, Success((TalkGroupValue(index, p.0, Some(p.1)), p.1.fwd)))
  }

  class TalkGroupID {
    const link: Link
    const index: string
    var data: TalkGroupData
    var links: Option<LeafLinks>

    function Value(): TalkGroupValue
      reads this
    {
      TalkGroupValue(index, data, links)
    }

    /** `TalkGroupID.__init__`. */
    constructor (link: Link, index: string)
      ensures this.link == link && this.index == index
      ensures Value() == TalkGroupValue(index, TalkGroupDefaults, None)
    {
      this.link := link;
      this.index := index;
      data := TalkGroupDefaults;
      links := None;
    }

    /** `TalkGroupID.get_data`. On failure nothing in the object changes. */
    method GetData() returns (r: Outcome<Error>)
      modifies this, link
      ensures var f := FetchTalkGroup(old(link.device), index);
              link.device == f.dev && link.log == old(link.log) + f.sent
              && (f.result.Success? ==> r == Pass && Value() == f.result.value.0)
              && (f.result.Failure? ==> r == Fail(f.result.error) && Value() == old(Value()))
    {
      var res := link.Raw(Line(["TIN", index]));
      if res.Failure? {
        return Fail(res.error);
      }
      var p := ParseTalkGroup(res.value);
      if p.Failure? {
        return Fail(p.error);
      }
      data, links := p.value.0, Some(p.value.1);
      r := Pass;
    }

    /** `TalkGroupID.set_data`: one TIN set command. */
    method SetData() returns (r: Outcome<Error>)
      modifies link
      ensures var x := Ask(old(link.device), TalkGroupSet(index, data));
              link.device == x.dev && link.log == old(link.log) + x.sent
              && r == (if x.result.Success? then Pass else Fail(x.result.error))
    {
      var res := link.Raw(TalkGroupSet(index, data));
      r := if res.Success? then Pass else Fail(res.error);
    }
  }

  // --------------------------------------------------------- TrunkFrequency

  datatype TrunkFrequencyValue = TrunkFrequencyValue(index: string, data: TrunkFrequencyData,
                                                     links: Option<LeafLinks>)

  function TrunkFrequencyIndex(t: TrunkFrequencyValue): string { t.index }

  /** `TrunkFrequency.get_data`: send `TFQ,index`, unpack the 12-field reply. */
  function FetchTrunkFrequency(dev: Device, index: string): (f: Fetched<TrunkFrequencyValue>)
    ensures f.sent == [Line(["TFQ", index])]
    ensures f.result.Success? ==>
              var res := Ask(dev, Line(["TFQ", index])).result;
              res.Success? && ParseTrunkFrequency(res.value).Success?
              && f.result.value.0 == TrunkFrequencyValue(index, ParseTrunkFrequency(res.value).value.0,
                                                         Some(ParseTrunkFrequency(res.value).value.1))
              && f.result.value.1 == ParseTrunkFrequency(res.value).value.1.fwd
  {
    var x := Ask(dev, Line(["TFQ", index]));
    match x.result
    case Failure(e) => Fetched(x.sent, x.dev, Failure(e))
    case Success(res) =>
      match ParseTrunkFrequency(res)
      case Failure(e) => Fetched(x.sent, x.dev, Failure(e))
      case Success(p) =>
        Fetched(x.sent, x.dev, Success((TrunkFrequencyValue(index, p.0, Some(p.1)), p.1.fwd)))
  }

  class TrunkFrequency {
    const link: Link
    const index: string
    var data: TrunkFrequencyData
    var links: Option<LeafLinks>

    function Value(): TrunkFrequencyValue
      reads this
    {
      TrunkFrequencyValue(index, data, links)
    }

    /** `TrunkFrequency.__init__`. */
    constructor (link: Link, index: string)
      ensures this.link == link && this.index == index
      ensures Value() == TrunkFrequencyValue(index, TrunkFrequencyDefaults, None)
    {
      this.link := link;
      this.index := index;
      data := TrunkFrequencyDefaults;
      links := None;
    }

    /** `TrunkFrequency.get_data`. On failure nothing in the object changes. */
    method GetData() returns (r: Outcome<Error>)
      modifies this, link
      ensures var f := FetchTrunkFrequency(old(link.device), index);
              link.device == f.dev && link.log == old(link.log) + f.sent
              && (f.result.Success? ==> r == Pass && Value() == f.result.value.0)
              && (f.result.Failure? ==> r == Fail(f.result.error) && Value() == old(Value()))
    {
      var res := link.Raw(Line(["TFQ", index]));
      if res.Failure? {
        return Fail(res.error);
      }
      var p := ParseTrunkFrequency(res.value);
      if p.Failure? {
        return Fail(p.error);
      }
      data, links := p.value.0, Some(p.value.1);
      r := Pass;
    }

    /** `TrunkFrequency.set_data`: one TFQ set command. */
    method SetData() returns (r: Outcome<Error>)
      modifies link
      ensures var x := Ask(old(link.device), TrunkFrequencySet(index, data));
              link.device == x.dev && link.log == old(link.log) + x.sent
              && r == (if x.result.Success? then Pass else Fail(x.result.error))
    {
      var res := link.Raw(TrunkFrequencySet(index, data));
      r := if res.Success? then Pass else Fail(res.error);
    }
  }
}
