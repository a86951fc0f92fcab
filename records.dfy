/** The record layouts of `pyuniden/other_classes.py`: how each record's
    reply splits into fields, which of them the client keeps, and how its set
    command is laid out.

    Each record kind has a `...Data` datatype for the fields the client can
    change and sends back, and a links datatype for the structural fields the
    device maintains (reverse and forward index, parent index, chain head and
    tail, sequence number), which the set commands never carry. Every field
    stays text, as in the source. */
module Records {
  import opened Wrappers
  import opened Wire
  import opened Errors

  /** A tuple unpack of `res.split(',')` into `n` names. */
  function Fields(res: string, n: nat): (r: Result<seq<string>, Error>)
    ensures r.Success? <==> |Split(res, ',')| == n
    ensures r.Success? ==> r.value == Split(res, ',')
    ensures r.Failure? ==> r.error == UnpackError(n, |Split(res, ',')|)
  {
    var f := Split(res, ',');
    if |f| == n then Success(f) else Failure(UnpackError(n, |f|))
  }

  /** A command line: the fields joined with commas (`','.join([...])`). */
  function Line(fs: seq<string>): string
  {
    Join(fs, ',')
  }

  /** Joining a mnemonic with an already joined list is joining the whole
      list (`','.join(['QSL', ','.join(pages)])`). */
  lemma LineNested(a: string, rest: seq<string>)
    requires |rest| >= 1
    ensures Line([a, Line(rest)]) == Line([a] + rest)
  {
    var ps := [a] + rest;
    assert ps[0] == a && ps[1..] == rest;
    assert Join(ps, ',') == a + [','] + Join(rest, ',');
    var two := [a, Line(rest)];
    assert two[1..] == [Line(rest)];
    assert Join(two, ',') == a + [','] + Join([Line(rest)], ',');
  }

  /** Two three-field lines that share their first two fields are equal
      only when their last fields are. */
  lemma LineLastField(a: string, b: string, x: string, y: string)
    ensures Line([a, b, x]) == Line([a, b, y]) ==> x == y
  {
    var p := a + [','] + b + [','];
    forall z | true ensures Line([a, b, z]) == p + z {
      assert [a, b, z][1..] == [b, z] && [b, z][1..] == [z];
      assert Join([b, z], ',') == b + [','] + z;
      assert Join([a, b, z], ',') == a + [','] + (b + [','] + z);
    }
    if p + x == p + y {
      assert x == (p + x)[|p|..];
    }
  }

  /** Reply to a command whose answer is `MNEMONIC,value` (SIH, SIT, QGL, GLI,
      SLI, GLF and the append commands): the value. */
  function Second(res: string): (r: Result<string, Error>)
    ensures r.Success? <==> |Split(res, ',')| == 2
    ensures r.Success? ==> r.value == Split(res, ',')[1] && ',' !in r.value
  {
    var f :- Fields(res, 2);
    SplitPiecesPlain(res, ',');
    Success(f[1])
  }

  /** The reply to an append command (`(acc, chn_index) = res.split(',')`):
      the new record's index. The source's test `chn_index == -1` compares a
      text with a number and never holds, so no reply counts as "full". */
  function Appended(res: Result<string, Error>): (r: Result<string, Error>)
    ensures res.Failure? ==> r == Failure(res.error)
    ensures res.Success? ==> r == Second(res.value)
  {
    match res
    case Failure(e) => Failure(e)
    case Success(text) => Second(text)
  }

  /** A delete method's outcome: the command's error if it raised, else
      the KeyError `pop` raises for a key the dictionary does not hold; the
      command has been sent either way. */
  function Deleted(res: Result<string, Error>, key: string, keys: set<string>): (r: Outcome<Error>)
    ensures r.Pass? <==> res.Success? && key in keys
    ensures res.Failure? ==> r == Fail(res.error)
    ensures res.Success? && key !in keys ==> r == Fail(KeyError(key))
  {
    if res.Failure? then Fail(res.error)
    else if key !in keys then Fail(KeyError(key))
    else Pass
  }

  // ---------------------------------------------------------------- Channel

  datatype ChannelData = ChannelData(
    name: string, frq: string, mod: string, dcs: string, tlock: string,
    lout: string, pri: string, att: string, alt: string, altl: string,
    audioType: string, p25nac: string, numberTag: string, altColor: string,
    altPattern: string, volOffset: string)

  /** Links of a channel, talk group or trunk frequency. */
  datatype LeafLinks = LeafLinks(rev: string, fwd: string, sys: string, grp: string)

  /** `Channel.__init__` defaults. */
  const ChannelDefaults := ChannelData("NONAME", "00000000", "AM", "0", "0", "0", "0", "0",
                                       "0", "0", "0", "", "NONE", "YELLOW", "0", "0")

  /** CIN reply: 22 fields; fields 11-14 are the links, field 15 is reserved. */
  function ParseChannel(res: string): (r: Result<(ChannelData, LeafLinks), Error>)
    ensures r.Failure? <==> |Split(res, ',')| != 22
    ensures r.Failure? ==> r.error == UnpackError(22, |Split(res, ',')|)
    ensures r.Success? ==> var f := Split(res, ',');
      r.value.0.name == f[1] && r.value.0.volOffset == f[21]
      && r.value.1 == LeafLinks(f[11], f[12], f[13], f[14])
  {
    var f :- Fields(res, 22);
    Success((ChannelData(f[1], f[2], f[3], f[4], f[5], f[6], f[7], f[8], f[9], f[10],
                         f[16], f[17], f[18], f[19], f[20], f[21]),
             LeafLinks(f[11], f[12], f[13], f[14])))
  }

  function ChannelSet(index: string, d: ChannelData): string
  {
    Line(["CIN", index, d.name, d.frq, d.mod, d.dcs, d.tlock, d.lout, d.pri, d.att,
          d.alt, d.altl, "", d.audioType, d.p25nac, d.numberTag, d.altColor,
          d.altPattern, d.volOffset])
  }

  /** A channel's set command carries CIN, the index, then the reply's fields
      1-10, an empty reserved field and fields 16-21: the links 11-14 are left
      out and everything else keeps its place. */
  lemma ChannelSetMirrorsGet(res: string, index: string)
    requires ParseChannel(res).Success? && ',' !in index
    ensures var f := Split(res, ',');
            Split(ChannelSet(index, ParseChannel(res).value.0), ',')
            == ["CIN", index] + f[1..11] + [""] + f[16..22]
  {
    var f := Split(res, ',');
    var d := ParseChannel(res).value.0;
    var line := ["CIN", index, d.name, d.frq, d.mod, d.dcs, d.tlock, d.lout, d.pri, d.att,
                 d.alt, d.altl, "", d.audioType, d.p25nac, d.numberTag, d.altColor,
                 d.altPattern, d.volOffset];
    assert line == ["CIN", index] + f[1..11] + [""] + f[16..22];
    SplitPiecesPlain(res, ',');
    SplitJoin(line, ',');
  }

  // ------------------------------------------------------------ TalkGroupID

  datatype TalkGroupData = TalkGroupData(
    name: string, tgid: string, lout: string, pri: string, alt: string, altl: string,
    audioType: string, numberTag: string, altColor: string, altPattern: string,
    volOffset: string)

  /** `TalkGroupID.__init__` defaults. */
  const TalkGroupDefaults := TalkGroupData("NONAME", "0", "0", "0", "0", "0", "0", "NONE",
                                           "OFF", "0", "0")

  /** TIN reply: 17 fields; fields 7-10 are the links, field 11 is reserved. */
  function ParseTalkGroup(res: string): (r: Result<(TalkGroupData, LeafLinks), Error>)
    ensures r.Failure? <==> |Split(res, ',')| != 17
    ensures r.Failure? ==> r.error == UnpackError(17, |Split(res, ',')|)
    ensures r.Success? ==> r.value.1 == LeafLinks(Split(res, ',')[7], Split(res, ',')[8],
                                                  Split(res, ',')[9], Split(res, ',')[10])
  {
    var f :- Fields(res, 17);
    Success((TalkGroupData(f[1], f[2], f[3], f[4], f[5], f[6], f[12], f[13], f[14], f[15], f[16]),
             LeafLinks(f[7], f[8], f[9], f[10])))
  }

  function TalkGroupSet(index: string, d: TalkGroupData): string
  {
    Line(["TIN", index, d.name, d.tgid, d.lout, d.pri, d.alt, d.altl, "", d.audioType,
          d.numberTag, d.altColor, d.altPattern, d.volOffset])
  }

  /** A talk group's set command carries TIN, the index, the reply's fields
      1-6, an empty reserved field and fields 12-16; the links 7-10 are left out. */
  lemma TalkGroupSetMirrorsGet(res: string, index: string)
    requires ParseTalkGroup(res).Success? && ',' !in index
    ensures var f := Split(res, ',');
            Split(TalkGroupSet(index, ParseTalkGroup(res).value.0), ',')
            == ["TIN", index] + f[1..7] + [""] + f[12..17]
  {
    var f := Split(res, ',');
    var d := ParseTalkGroup(res).value.0;
    var line := ["TIN", index, d.name, d.tgid, d.lout, d.pri, d.alt, d.altl, "", d.audioType,
                 d.numberTag, d.altColor, d.altPattern, d.volOffset];
    assert line == ["TIN", index] + f[1..7] + [""] + f[12..17];
    SplitPiecesPlain(res, ',');
    SplitJoin(line, ',');
  }

  // --------------------------------------------------------- TrunkFrequency

  datatype TrunkFrequencyData = TrunkFrequencyData(
    frq: string, lcn: string, lout: string, numberTag: string, volOffset: string)

  /** `TrunkFrequency.__init__` defaults. */
  const TrunkFrequencyDefaults := TrunkFrequencyData("00000000", "", "0", "NONE", "0")

  /** TFQ reply: 12 fields; fields 4-7 are the links, 8 and 11 are reserved. */
  function ParseTrunkFrequency(res: string): (r: Result<(TrunkFrequencyData, LeafLinks), Error>)
    ensures r.Failure? <==> |Split(res, ',')| != 12
    ensures r.Failure? ==> r.error == UnpackError(12, |Split(res, ',')|)
    ensures r.Success? ==> r.value.1 == LeafLinks(Split(res, ',')[4], Split(res, ',')[5],
                                                  Split(res, ',')[6], Split(res, ',')[7])
  {
    var f :- Fields(res, 12);
    Success((TrunkFrequencyData(f[1], f[2], f[3], f[9], f[10]), LeafLinks(f[4], f[5], f[6], f[7])))
  }

  function TrunkFrequencySet(index: string, d: TrunkFrequencyData): string
  {
    Line(["TFQ", index, d.frq, d.lcn, d.lout, "", d.numberTag, d.volOffset, ""])
  }

  /** A trunk frequency's set command carries TFQ, the index, the reply's
      fields 1-3, an empty reserved field, fields 9-10 and a final empty
      reserved field; the links 4-7 are left out. */
  lemma TrunkFrequencySetMirrorsGet(res: string, index: string)
    requires ParseTrunkFrequency(res).Success? && ',' !in index
    ensures var f := Split(res, ',');
            Split(TrunkFrequencySet(index, ParseTrunkFrequency(res).value.0), ',')
            == ["TFQ", index] + f[1..4] + [""] + f[9..11] + [""]
  {
    var f := Split(res, ',');
    var d := ParseTrunkFrequency(res).value.0;
    var line := ["TFQ", index, d.frq, d.lcn, d.lout, "", d.numberTag, d.volOffset, ""];
    assert line == ["TFQ", index] + f[1..4] + [""] + f[9..11] + [""];
    SplitPiecesPlain(res, ',');
    SplitJoin(line, ',');
  }

  // ------------------------------------------------------------------ Group

  datatype GroupData = GroupData(
    grpType: string, name: string, quickKey: string, lout: string,
    latitude: string, longitude: string, grpRange: string, gpsEnable: string)

  /** Links of a group or a site: neighbours, parent system, child chain. */
  datatype ChainLinks = ChainLinks(rev: string, fwd: string, sys: string,
                                   head: string, tail: string, seqNo: string)

  /** `Group.__init__` defaults (`grp_type` 'C'). */
  const GroupDefaults := GroupData("C", "NONAME", ".", "0", "0", "0", "0", "0")

  /** GIN reply: 15 fields; fields 5-10 are the links. */
  function ParseGroup(res: string): (r: Result<(GroupData, ChainLinks), Error>)
    ensures r.Failure? <==> |Split(res, ',')| != 15
    ensures r.Failure? ==> r.error == UnpackError(15, |Split(res, ',')|)
    ensures r.Success? ==> r.value.1.head == Split(res, ',')[8]
                           && r.value.1.fwd == Split(res, ',')[6]
  {
    var f :- Fields(res, 15);
    Success((GroupData(f[1], f[2], f[3], f[4], f[11], f[12], f[13], f[14]),
             ChainLinks(f[5], f[6], f[7], f[8], f[9], f[10])))
  }

  function GroupSet(index: string, d: GroupData): string
  {
    Line(["GIN", index, d.name, d.quickKey, d.lout, d.latitude, d.longitude,
          d.grpRange, d.gpsEnable])
  }

  /** A group's set command carries GIN, the index and the reply's fields 2-4
      and 11-14: the group type and the links are left out. */
  lemma GroupSetMirrorsGet(res: string, index: string)
    requires ParseGroup(res).Success? && ',' !in index
    ensures var f := Split(res, ',');
            Split(GroupSet(index, ParseGroup(res).value.0), ',')
            == ["GIN", index] + f[2..5] + f[11..15]
  {
    var f := Split(res, ',');
    var d := ParseGroup(res).value.0;
    var line := ["GIN", index, d.name, d.quickKey, d.lout, d.latitude, d.longitude,
                 d.grpRange, d.gpsEnable];
    assert line == ["GIN", index] + f[2..5] + f[11..15];
    SplitPiecesPlain(res, ',');
    SplitJoin(line, ',');
  }

  // ------------------------------------------------------------------- Site

  datatype SiteData = SiteData(
    name: string, quickKey: string, hld: string, lout: string, mod: string,
    att: string, cCh: string, startKey: string, latitude: string,
    longitude: string, sitRange: string, gpsEnable: string, motType: string,
    edacsType: string, p25waiting: string)

  /** `Site.__init__` defaults. */
  const SiteDefaults := SiteData("NONAME", ".", "0", "0", "AUTO", "0", "1", ".", "0", "0",
                                 "1", "0", "", "", "")

  /** SIF reply: 27 fields; fields 11-16 are the links, 1, 9, 10, 22 and 26
      are reserved. */
  function ParseSite(res: string): (r: Result<(SiteData, ChainLinks), Error>)
    ensures r.Failure? <==> |Split(res, ',')| != 27
    ensures r.Failure? ==> r.error == UnpackError(27, |Split(res, ',')|)
    ensures r.Success? ==> r.value.1.head == Split(res, ',')[14]
                           && r.value.1.fwd == Split(res, ',')[12]
  {
    var f :- Fields(res, 27);
    Success((SiteData(f[2], f[3], f[4], f[5], f[6], f[7], f[8], f[17], f[18], f[19], f[20],
                      f[21], f[23], f[24], f[25]),
             ChainLinks(f[11], f[12], f[13], f[14], f[15], f[16])))
  }

  function SiteSet(index: string, d: SiteData): string
  {
    Line(["SIF", index, d.name, d.quickKey, d.hld, d.lout, d.mod, d.att, d.cCh, "", "",
          d.startKey, d.latitude, d.longitude, d.sitRange, d.gpsEnable, "", d.motType,
          d.edacsType, d.p25waiting, ""])
  }

  /** A site's set command carries SIF, the index, the reply's fields 2-8, two
      empty reserved fields, fields 17-21, an empty field, fields 23-25 and
      a final empty field: the first reserved field and the links are left out. */
  lemma SiteSetMirrorsGet(res: string, index: string)
    requires ParseSite(res).Success? && ',' !in index
    ensures var f := Split(res, ',');
            Split(SiteSet(index, ParseSite(res).value.0), ',')
            == ["SIF", index] + f[2..9] + ["", ""] + f[17..22] + [""] + f[23..26] + [""]
  {
    var f := Split(res, ',');
    var d := ParseSite(res).value.0;
    var line := ["SIF", index, d.name, d.quickKey, d.hld, d.lout, d.mod, d.att, d.cCh, "", "",
                 d.startKey, d.latitude, d.longitude, d.sitRange, d.gpsEnable, "", d.motType,
                 d.edacsType, d.p25waiting, ""];
    assert f[2..9] == [d.name, d.quickKey, d.hld, d.lout, d.mod, d.att, d.cCh];
    assert f[17..22] == [d.startKey, d.latitude, d.longitude, d.sitRange, d.gpsEnable];
    assert f[23..26] == [d.motType, d.edacsType, d.p25waiting];
    assert line == ["SIF", index] + f[2..9] + ["", ""] + f[17..22] + [""] + f[23..26] + [""];
    SplitPiecesPlain(res, ',');
    SplitJoin(line, ',');
  }

  /** The Motorola custom band plan (MCP): six plans of lower, upper, step
      and offset. The source pads each tuple with a leading 0 so that plan k
      sits at position k; the model keeps the six texts. */
  datatype BandPlan = BandPlan(lower: seq<string>, upper: seq<string>,
                               step: seq<string>, offset: seq<string>)

  /** MCP reply: 25 fields, four per plan after the mnemonic. */
  function ParseBandPlan(res: string): (r: Result<BandPlan, Error>)
    ensures r.Failure? <==> |Split(res, ',')| != 25
    ensures r.Success? ==> |r.value.lower| == 6 && |r.value.upper| == 6
                           && |r.value.step| == 6 && |r.value.offset| == 6
    ensures r.Success? ==> forall k :: 0 <= k < 6 ==>
              r.value.lower[k] == Split(res, ',')[1 + 4 * k]
              && r.value.upper[k] == Split(res, ',')[2 + 4 * k]
              && r.value.step[k] == Split(res, ',')[3 + 4 * k]
              && r.value.offset[k] == Split(res, ',')[4 + 4 * k]
  {
    var f :- Fields(res, 25);
    Success(BandPlan(seq(6, k requires 0 <= k < 6 => f[1 + 4 * k]),
                     seq(6, k requires 0 <= k < 6 => f[2 + 4 * k]),
                     seq(6, k requires 0 <= k < 6 => f[3 + 4 * k]),
                     seq(6, k requires 0 <= k < 6 => f[4 + 4 * k])))
  }

  /** The P25 band plan (ABP): sixteen base and spacing frequencies. */
  datatype P25Plan = P25Plan(baseFreq: seq<string>, spacingFreq: seq<string>)

  /** ABP reply: 33 fields, a base and a spacing frequency per entry. */
  function ParseP25Plan(res: string): (r: Result<P25Plan, Error>)
    ensures r.Failure? <==> |Split(res, ',')| != 33
    ensures r.Success? ==> |r.value.baseFreq| == 16 && |r.value.spacingFreq| == 16
    ensures r.Success? ==> forall k :: 0 <= k < 16 ==>
              r.value.baseFreq[k] == Split(res, ',')[1 + 2 * k]
              && r.value.spacingFreq[k] == Split(res, ',')[2 + 2 * k]
  {
    var f :- Fields(res, 33);
    Success(P25Plan(seq(16, k requires 0 <= k < 16 => f[1 + 2 * k]),
                    seq(16, k requires 0 <= k < 16 => f[2 + 2 * k])))
  }

  // ----------------------------------------------------------------- System

  datatype SystemData = SystemData(
    sysType: string, name: string, quickKey: string, hld: string, lout: string,
    dly: string, startKey: string, numberTag: string, agcAnalog: string,
    agcDigital: string, p25waiting: string, protect: string)

  datatype SystemLinks = SystemLinks(rev: string, fwd: string, chnGrpHead: string,
                                     chnGrpTail: string, seqNo: string)

  /** `System.__init__` defaults. */
  const SystemDefaults := SystemData("CNV", "NONAME", ".", "0", "0", "0", ".", "NONE",
                                     "0", "0", "200", "0")

  /** SIN reply: 29 fields; fields 12-16 are the links, 7-11, 18-22 and 28
      are reserved. */
  function ParseSystem(res: string): (r: Result<(SystemData, SystemLinks), Error>)
    ensures r.Failure? <==> |Split(res, ',')| != 29
    ensures r.Failure? ==> r.error == UnpackError(29, |Split(res, ',')|)
    ensures r.Success? ==> r.value.0.sysType == Split(res, ',')[1]
                           && r.value.1.chnGrpHead == Split(res, ',')[14]
                           && r.value.1.fwd == Split(res, ',')[13]
  {
    var f :- Fields(res, 29);
    Success((SystemData(f[1], f[2], f[3], f[4], f[5], f[6], f[17], f[23], f[24], f[25], f[26], f[27]),
             SystemLinks(f[12], f[13], f[14], f[15], f[16])))
  }

  /** Five and six empty reserved fields. */
  const Blank5: seq<string> := ["", "", "", "", ""]
  const Blank6: seq<string> := ["", "", "", "", "", ""]

  function SystemSet(index: string, d: SystemData): string
  {
    Line(["SIN", index, d.name, d.quickKey, d.hld, d.lout, d.dly] + Blank5 + [d.startKey]
         + Blank6 + [d.numberTag, d.agcAnalog, d.agcDigital, d.p25waiting])
  }

  /** A system's set command carries SIN, the index, the reply's fields 2-6,
      five empty fields, field 17, six empty fields and fields 23-26. The
      system type, the links and the protect flag are not sent, and the set
      layout has one reserved field more after START_KEY than the reply. */
  lemma SystemSetMirrorsGet(res: string, index: string)
    requires ParseSystem(res).Success? && ',' !in index
    ensures var f := Split(res, ',');
            Split(SystemSet(index, ParseSystem(res).value.0), ',')
            == ["SIN", index] + f[2..7] + Blank5 + [f[17]] + Blank6 + f[23..27]
  {
    var f := Split(res, ',');
    var d := ParseSystem(res).value.0;
    var line := ["SIN", index, d.name, d.quickKey, d.hld, d.lout, d.dly] + Blank5 + [d.startKey]
                + Blank6 + [d.numberTag, d.agcAnalog, d.agcDigital, d.p25waiting];
    assert line == ["SIN", index] + f[2..7] + Blank5 + [f[17]] + Blank6 + f[23..27];
    SplitPiecesPlain(res, ',');
    SplitJoin(line, ',');
  }

  datatype TrunkData = TrunkData(
    idSearch: string, sBit: string, endCode: string, afs: string, emg: string,
    emgl: string, fmap: string, ctmFmap: string, motId: string, emgColor: string,
    emgPattern: string, p25nac: string, priIdScan: string)

  datatype TrunkLinks = TrunkLinks(tgidGrpHead: string, tgidGrpTail: string,
                                   idLoutGrpHead: string, idLoutGrpTail: string)

  /** Trunk defaults of `System.__init__`. */
  const TrunkDefaults := TrunkData("0", "0", "0", "0", "0", "0", "0", "", "0", "OFF", "0",
                                   "search", "0")

  /** TRN reply: 30 fields; fields 21-24 are the links, 5, 6 and 11-20 are reserved. */
  function ParseTrunk(res: string): (r: Result<(TrunkData, TrunkLinks), Error>)
    ensures r.Failure? <==> |Split(res, ',')| != 30
    ensures r.Failure? ==> r.error == UnpackError(30, |Split(res, ',')|)
    ensures r.Success? ==> r.value.1.tgidGrpHead == Split(res, ',')[21]
  {
    var f :- Fields(res, 30);
    Success((TrunkData(f[1], f[2], f[3], f[4], f[7], f[8], f[9], f[10], f[25], f[26], f[27],
                       f[28], f[29]),
             TrunkLinks(f[21], f[22], f[23], f[24])))
  }

  const Blank10: seq<string> := ["", "", "", "", "", "", "", "", "", ""]

  function TrunkSet(index: string, d: TrunkData): string
  {
    Line(["TRN", index, d.idSearch, d.sBit, d.endCode, d.afs, "", "", d.emg, d.emgl, d.fmap,
          d.ctmFmap] + Blank10 + [d.motId, d.emgColor, d.emgPattern, d.p25nac, d.priIdScan])
  }

  /** A system's trunk set command carries TRN, the index, the reply's fields
      1-4, two empty fields, fields 7-10, ten empty fields and fields 25-29;
      the links 21-24 are left out. */
  lemma TrunkSetMirrorsGet(res: string, index: string)
    requires ParseTrunk(res).Success? && ',' !in index
    ensures var f := Split(res, ',');
            Split(TrunkSet(index, ParseTrunk(res).value.0), ',')
            == ["TRN", index] + f[1..5] + ["", ""] + f[7..11] + Blank10 + f[25..30]
  {
    var f := Split(res, ',');
    var d := ParseTrunk(res).value.0;
    var line := ["TRN", index, d.idSearch, d.sBit, d.endCode, d.afs, "", "", d.emg, d.emgl,
                 d.fmap, d.ctmFmap] + Blank10 + [d.motId, d.emgColor, d.emgPattern, d.p25nac,
                 d.priIdScan];
    assert line == ["TRN", index] + f[1..5] + ["", ""] + f[7..11] + Blank10 + f[25..30];
    SplitPiecesPlain(res, ',');
    SplitJoin(line, ',');
  }
}
