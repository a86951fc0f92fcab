/** `UnidenScanner` in `pyuniden/classes.py`: the facade over the serial
    link.

    The pure pieces are lifted out as functions: `push_key`'s key and mode
    tables, the QSH/QSC command builders with their frequency encoding and
    broadcast-screen check, the pairing of the GLG reply with its keys, and
    the QSL page decoding and encoding. The scanner object keeps the program
    mode flag, the system index head and tail, the systems read by
    `get_scan_settings` (stored as values under their index, as the record
    layer does) and the ten quick-lockout pages. */
module Scanners {
  import opened Wrappers
  import opened Wire
  import opened Errors
  import opened Protocol
  import opened Records
  import opened Chains
  import opened Util
  import opened Systems

  // ---------------------------------------------------------------- push_key

  /** The key table of `push_key`: key name to key code. */
  const KeyCodes: map<string, string> :=
    map["menu" := "M", "func" := "F", "hold" := "H", "scan" := "S", "srch" := "S",
        "lo" := "L", "1" := "1", "2" := "2", "3" := "3", "4" := "4", "5" := "5",
        "6" := "6", "7" := "7", "8" := "8", "9" := "9", "0" := "0", "dot" := ".",
        "no" := ".", "pri" := ".", "E" := "E", "yes" := "E", "gps" := "E", "pwr" := "P",
        "vright" := ">", "vleft" := "<", "vpush" := "^", "lock" := "P", "light" := "P"]

  /** The mode table of `push_key`: mode name to mode code. */
  const KeyModes: map<string, string> := map["press" := "P", "long" := "L", "hold" := "H", "release" := "R"]

  /** The KEY command of `push_key`. The key is looked up first, so an
      unknown key raises its `KeyError` before the mode is looked at. */
  function KeyCommand(mode: string, key: string): (r: Result<string, Error>)
    ensures r.Success? <==> key in KeyCodes && mode in KeyModes
    ensures key !in KeyCodes ==> r == Failure(KeyError(key))
    ensures key in KeyCodes && mode !in KeyModes ==> r == Failure(KeyError(mode))
  {
    if key !in KeyCodes then Failure(KeyError(key))
    else if mode !in KeyModes then Failure(KeyError(mode))
    else Success(Line(["KEY", KeyCodes[key], KeyModes[mode]]))
  }

  /** Every key code and every mode code is one character other than a comma. */
  lemma KeyCodesPlain()
    ensures forall k :: k in KeyCodes ==> |KeyCodes[k]| == 1 && ',' !in KeyCodes[k]
    ensures forall m :: m in KeyModes ==> |KeyModes[m]| == 1 && ',' !in KeyModes[m]
  {
  }

  /** A KEY command splits back into exactly the mnemonic, the key code and
      the mode code. */
  lemma KeyCommandFields(mode: string, key: string)
    requires KeyCommand(mode, key).Success?
    ensures Split(KeyCommand(mode, key).value, ',') == ["KEY", KeyCodes[key], KeyModes[mode]]
  {
    KeyCodesPlain();
    SplitJoin(["KEY", KeyCodes[key], KeyModes[mode]], ',');
  }

  /** The aliases of the key table: keys of one group send the same command. */
  lemma KeyAliases(mode: string)
    ensures KeyCommand(mode, "scan") == KeyCommand(mode, "srch")
    ensures KeyCommand(mode, "dot") == KeyCommand(mode, "no") == KeyCommand(mode, "pri")
    ensures KeyCommand(mode, "E") == KeyCommand(mode, "yes") == KeyCommand(mode, "gps")
    ensures KeyCommand(mode, "pwr") == KeyCommand(mode, "lock") == KeyCommand(mode, "light")
  {
    SameCode(mode, "scan", "srch");
    DotCodes();
    SameCode(mode, "dot", "no");
    SameCode(mode, "no", "pri");
    ECodes();
    SameCode(mode, "E", "yes");
    SameCode(mode, "yes", "gps");
    PowerCodes();
    SameCode(mode, "pwr", "lock");
    SameCode(mode, "lock", "light");
  }

  /** The keys bound to the `.` code. */
  lemma DotCodes()
    ensures "dot" in KeyCodes && "no" in KeyCodes && "pri" in KeyCodes
    ensures KeyCodes["dot"] == KeyCodes["no"] == KeyCodes["pri"] == "."
  {
  }

  /** The keys bound to the `E` code. */
  lemma ECodes()
    ensures "E" in KeyCodes && "yes" in KeyCodes && "gps" in KeyCodes
    ensures KeyCodes["E"] == KeyCodes["yes"] == KeyCodes["gps"] == "E"
  {
  }

  /** The keys bound to the `P` code. */
  lemma PowerCodes()
    ensures "pwr" in KeyCodes && "lock" in KeyCodes && "light" in KeyCodes
    ensures KeyCodes["pwr"] == KeyCodes["lock"] == KeyCodes["light"] == "P"
  {
  }

  /** Two keys with the same code send the same command. */
  lemma SameCode(mode: string, k1: string, k2: string)
    requires k1 in KeyCodes && k2 in KeyCodes && KeyCodes[k1] == KeyCodes[k2]
    ensures KeyCommand(mode, k1) == KeyCommand(mode, k2)
  {
  }

  // ---------------------------------------------------------------- QSH / QSC

  /** The parameters of `set_quick_search_hold` and
      `set_curfrq_reception_status`, each as the text `str()` gives. */
  datatype QuickSearch = QuickSearch(frq: string, mod: string, att: string, dly: string,
                                     codeSrch: string, bsc: string, rep: string,
                                     agcAnalog: string, agcDigital: string, p25waiting: string)

  /** The frequency field of QSH/QSC: the text before the first '.'
      left-padded with '0' to four characters, then the text between the
      first and the second '.' right-padded to four. A frequency without a
      '.' has no second piece: `IndexError`. */
  function QuickFrequency(frq: string): (r: Result<string, Error>)
    ensures r.Failure? <==> Count(frq, '.') == 0
    ensures r.Failure? ==> r.error == IndexError
    ensures r.Success? ==> |r.value| >= 8
  {
    var parts := Split(frq, '.');
    if |parts| < 2 then Failure(IndexError)
    else Success(PadLeft(parts[0], 4, '0') + PadRight(parts[1], 4, '0'))
  }

  /** With exactly one '.', the QSH frequency is `frq_to_scanner`'s; with
      more, QSH takes only the first two pieces where `frq_to_scanner`
      fails its unpack. */
  lemma QuickFrequencyAgrees(frq: string)
    ensures Count(frq, '.') == 1 ==> QuickFrequency(frq) == FrqToScanner(frq)
    ensures Count(frq, '.') >= 2 ==> QuickFrequency(frq).Success? && FrqToScanner(frq).Failure?
  {
    if Count(frq, '.') >= 1 {
      assert frq != "";
    }
  }

  /** A comma-free frequency gives a comma-free field. */
  lemma QuickFrequencyPlain(frq: string)
    requires ',' !in frq && QuickFrequency(frq).Success?
    ensures ',' !in QuickFrequency(frq).value
  {
    SplitPiecesFrom(frq, '.', ',');
    var parts := Split(frq, '.');
    var l := PadLeft(parts[0], 4, '0');
    var h := PadRight(parts[1], 4, '0');
    assert ',' !in l by {
      forall i | 0 <= i < |l| ensures l[i] != ',' {
        if i >= |l| - |parts[0]| {
          assert l[i] == l[|l| - |parts[0]|..][i - (|l| - |parts[0]|)];
        }
      }
    }
    assert ',' !in h by {
      forall i | 0 <= i < |h| ensures h[i] != ',' {
        if i < |parts[1]| {
          assert h[i] == h[..|parts[1]|][i];
        }
      }
    }
  }

  /** `s.replace(c, '')`. */
  function Without(s: string, c: char): (r: string)
    ensures forall x :: x in r <==> x in s && x != c
  {
    if |s| == 0 then ""
    else
      assert s == [s[0]] + s[1..];
      (if s[0] == c then "" else [s[0]]) + Without(s[1..], c)
  }

  /** The broadcast-screen test as the source writes it: sixteen characters,
      and nothing left once every '0' and every '1' is removed. */
  predicate BScreenAccepted(bsc: string)
  {
    |bsc| == 16 && |Without(Without(bsc, '0'), '1')| == 0
  }

  /** The test accepts exactly the masks of sixteen '0'/'1' characters. */
  lemma BScreenAcceptedMeans(bsc: string)
    ensures BScreenAccepted(bsc) <==> |bsc| == 16 && forall i :: 0 <= i < |bsc| ==> bsc[i] == '0' || bsc[i] == '1'
  {
    var rest := Without(Without(bsc, '0'), '1');
    if |rest| == 0 {
      forall i | 0 <= i < |bsc| ensures bsc[i] == '0' || bsc[i] == '1' {
        assert bsc[i] in bsc;
        assert bsc[i] !in rest;
      }
    } else {
      assert rest[0] in rest;
      assert rest[0] in bsc && rest[0] != '0' && rest[0] != '1';
    }
  }

  /** The fourteen fields of QSH/QSC: the mnemonic, the encoded frequency,
      a reserved slot, modulation, attenuation, delay, a reserved slot, the
      CTCSS/DCS search, the broadcast screen, repeater find, a reserved slot
      and the two AGC settings and the P25 waiting time. */
  function QuickSearchFields(mnemonic: string, frq: string, q: QuickSearch): (r: seq<string>)
  {
    [mnemonic, frq, "", q.mod, q.att, q.dly, "", q.codeSrch, q.bsc, q.rep, "",
     q.agcAnalog, q.agcDigital, q.p25waiting]
  }

  /** The QSH/QSC command, checked in the source's order: the frequency
      split, then the modulation against `modValues`, then the broadcast
      screen. */
  function QuickSearchCommand(mnemonic: string, q: QuickSearch, modValues: set<string>): (r: Result<string, Error>)
    ensures r.Success? <==> Count(q.frq, '.') > 0 && q.mod in modValues && BScreenAccepted(q.bsc)
    ensures Count(q.frq, '.') == 0 ==> r == Failure(IndexError)
    ensures Count(q.frq, '.') > 0 && q.mod !in modValues ==> r == Failure(ModulationError(q.mod))
    ensures Count(q.frq, '.') > 0 && q.mod in modValues && !BScreenAccepted(q.bsc) ==> r == Failure(BScreenError(q.bsc))
  {
    var frq :- QuickFrequency(q.frq);
    if q.mod !in modValues then Failure(ModulationError(q.mod))
    else if !BScreenAccepted(q.bsc) then Failure(BScreenError(q.bsc))
    else Success(Line(QuickSearchFields(mnemonic, frq, q)))
  }

  /** No parameter holds a comma. */
  predicate CommaFree(mnemonic: string, q: QuickSearch)
  {
    ',' !in mnemonic && ',' !in q.frq && ',' !in q.mod && ',' !in q.att && ',' !in q.dly
    && ',' !in q.codeSrch && ',' !in q.rep && ',' !in q.agcAnalog && ',' !in q.agcDigital
    && ',' !in q.p25waiting
  }

  /** Comma-free parameters give comma-free fields. */
  lemma QuickSearchFieldsPlain(mnemonic: string, frq: string, q: QuickSearch)
    requires CommaFree(mnemonic, q) && ',' !in frq && ',' !in q.bsc
    ensures Separable(QuickSearchFields(mnemonic, frq, q), ',')
  {
  }

  /** A command built from comma-free parameters splits back into its
      fourteen fields, the encoded frequency second. */
  lemma QuickSearchCommandFields(mnemonic: string, q: QuickSearch, modValues: set<string>)
    requires QuickSearchCommand(mnemonic, q, modValues).Success?
    requires CommaFree(mnemonic, q)
    ensures var f := Split(QuickSearchCommand(mnemonic, q, modValues).value, ',');
            f == QuickSearchFields(mnemonic, QuickFrequency(q.frq).value, q) && |f| == 14
  {
    var frq := QuickFrequency(q.frq).value;
    QuickFrequencyPlain(q.frq);
    BScreenAcceptedMeans(q.bsc);
    assert ',' !in q.bsc by {
      forall i | 0 <= i < |q.bsc| ensures q.bsc[i] != ',' { }
    }
    QuickSearchFieldsPlain(mnemonic, frq, q);
    SplitJoin(QuickSearchFields(mnemonic, frq, q), ',');
  }

  /** The parameters `set_quick_search_hold` and `set_curfrq_reception_status`
      take when only the frequency is given: AUTO modulation, attenuation,
      search, repeater find and both AGC settings off, a delay of 2, an
      all-'0' broadcast screen and a P25 waiting time of 200. */
  function QuickSearchDefaults(frq: string): (q: QuickSearch)
    ensures q.frq == frq && q.mod == "AUTO"
  {
    QuickSearch(frq, "AUTO", "0", "2", "0", "0000000000000000", "0", "0", "0", "200")
  }

  /** With the default parameters the command is refused only for a
      frequency without '.' or when AUTO is not an accepted modulation. */
  lemma QuickSearchDefaultsAccepted(mnemonic: string, frq: string, modValues: set<string>)
    ensures QuickSearchCommand(mnemonic, QuickSearchDefaults(frq), modValues).Success?
            <==> Count(frq, '.') > 0 && "AUTO" in modValues
  {
    ZeroScreenAccepted(QuickSearchDefaults(frq).bsc);
  }

  /** Sixteen '0's pass the broadcast-screen test. */
  lemma ZeroScreenAccepted(bsc: string)
    requires bsc == "0000000000000000"
    ensures BScreenAccepted(bsc)
  {
    BScreenAcceptedMeans(bsc);
  }

  /** The fields the default command sends, for a comma-free mnemonic and
      frequency. */
  lemma QuickSearchDefaultsFields(mnemonic: string, frq: string, modValues: set<string>)
    requires Count(frq, '.') > 0 && "AUTO" in modValues
    requires ',' !in mnemonic && ',' !in frq
    ensures QuickSearchCommand(mnemonic, QuickSearchDefaults(frq), modValues).Success?
    ensures Split(QuickSearchCommand(mnemonic, QuickSearchDefaults(frq), modValues).value, ',')
            == [mnemonic, QuickFrequency(frq).value, "", "AUTO", "0", "2", "", "0",
                "0000000000000000", "0", "", "0", "0", "200"]
  {
    var q := QuickSearchDefaults(frq);
    QuickSearchDefaultsAccepted(mnemonic, frq, modValues);
    assert CommaFree(mnemonic, q) by {
      assert ',' !in "AUTO" && ',' !in "0" && ',' !in "2" && ',' !in "200";
    }
    QuickSearchCommandFields(mnemonic, q, modValues);
  }

  /** What `set_curfrq_reception_status` returns from its reply: the RSSI,
      the frequency and the squelch status of a four-field reply. */
  function CurfrqStatus(res: string): (r: Result<(string, string, string), Error>)
    ensures r.Success? <==> |Split(res, ',')| == 4
    ensures r.Success? ==> r.value == (Split(res, ',')[1], Split(res, ',')[2], Split(res, ',')[3])
  {
    var f :- Fields(res, 4);
    Success((f[1], f[2], f[3]))
  }

  // ---------------------------------------------------------------- GLG

  /** The keys of `get_reception_status`, in reply order. */
  const ReceptionKeys: seq<string> :=
    ["frq_tgid", "mod", "att", "ctcss_dcs", "name1", "name2",
     "name3", "sql", "mute", "sys_tag", "chan_tag", "p25nac"]

  /** `dict(zip(keys, vals))` on top of `m`: pairs up to the shorter list,
      a later pair replacing an earlier one under the same key. */
  function Paired(m: map<string, string>, keys: seq<string>, vals: seq<string>): map<string, string>
    decreases |keys|
  {
    if |keys| == 0 || |vals| == 0 then m
    else Paired(m[keys[0] := vals[0]], keys[1..], vals[1..])
  }

  function Min(a: nat, b: nat): nat { if a < b then a else b }

  /** With distinct keys, the first `n` keys each get their own value, where
      `n` is the length of the shorter list, and nothing else changes. */
  lemma {:induction false} PairedMeaning(m: map<string, string>, keys: seq<string>, vals: seq<string>)
    requires forall i, j :: 0 <= i < j < |keys| ==> keys[i] != keys[j]
    ensures var r := Paired(m, keys, vals);
            var n := Min(|keys|, |vals|);
            (forall k :: k in r <==> k in m || k in keys[..n])
            && (forall i :: 0 <= i < n ==> keys[i] in r && r[keys[i]] == vals[i])
            && (forall k :: k in m && k !in keys[..n] ==> r[k] == m[k])
    decreases |keys|
  {
    if |keys| > 0 && |vals| > 0 {
      var m' := m[keys[0] := vals[0]];
      var n := Min(|keys|, |vals|);
      PairedMeaning(m', keys[1..], vals[1..]);
      var r := Paired(m, keys, vals);
      assert keys[..n] == [keys[0]] + keys[1..][..n - 1];
      forall i | 0 <= i < n ensures keys[i] in r && r[keys[i]] == vals[i] {
        if i == 0 {
          assert keys[1..][..n - 1] == keys[1..n];
          forall j | 1 <= j < n ensures keys[j] != keys[0] { }
          assert keys[0] !in keys[1..n];
        } else {
          assert keys[i] == keys[1..][i - 1] && vals[i] == vals[1..][i - 1];
        }
      }
    }
  }

  /** `get_reception_status` on its GLG reply. */
  function ReceptionStatus(res: string): map<string, string>
  {
    Paired(map[], ReceptionKeys, Split(res, ',')[1..])
  }

  /** The status holds exactly the first `n` keys, `n` being the number of
      reply fields after the mnemonic capped at twelve, and key `i` holds
      reply field `i + 1`. */
  lemma ReceptionStatusMeaning(res: string)
    ensures var r := ReceptionStatus(res);
            var f := Split(res, ',');
            var n := Min(12, |f| - 1);
            (forall k :: k in r <==> k in ReceptionKeys[..n])
            && (forall i :: 0 <= i < n ==> r[ReceptionKeys[i]] == f[i + 1])
  {
    var f := Split(res, ',');
    PairedMeaning(map[], ReceptionKeys, f[1..]);
    forall i | 0 <= i < Min(12, |f| - 1) ensures f[1..][i] == f[i + 1] { }
  }

  // ---------------------------------------------------------------- QSL

  /** The ten pages of a QSL reply, each through `zero_to_head`: the reply
      must split into exactly eleven fields. */
  function QuickLockoutPages(res: string): (r: Result<seq<seq<char>>, Error>)
    ensures r.Success? <==> |Split(res, ',')| == 11
    ensures r.Failure? ==> r.error == UnpackError(11, |Split(res, ',')|)
    ensures r.Success? ==> |r.value| == 10
  {
    var f :- Fields(res, 11);
    Success(seq(10, i requires 0 <= i < 10 => ZeroToHead(f[i + 1])))
  }

  /** The pages back through the source's `zero_to_tail`. */
  function Tails(pages: seq<seq<char>>): (r: seq<string>)
    ensures |r| == |pages|
    ensures forall i :: 0 <= i < |pages| ==>
              r[i] == if |pages[i]| == 10 then pages[i][1..9] + [pages[i][0], pages[i][9]] else pages[i]
  {
    TailAsWrittenShapes(pages);
    seq(|pages|, i requires 0 <= i < |pages| => ZeroToTailAsWritten(pages[i]))
  }

  /** What `set_scan_settings` sends first: QSL and the pages joined by
      commas. */
  function QuickLockoutCommand(pages: seq<seq<char>>): (r: string)
    ensures |pages| >= 1 ==> r == Line(["QSL"] + Tails(pages))
    ensures |pages| == 0 ==> r == "QSL,"
  {
    if |pages| >= 1 then LineNested("QSL", Tails(pages)); Line(["QSL", Line(Tails(pages))])
    else
      assert Line(Tails(pages)) == "";
      assert ["QSL", ""][1..] == [""];
      assert Line(["QSL", ""]) == "QSL" + [','] + "";
      Line(["QSL", Line(Tails(pages))])
  }

  /** The pages back through the intended `zero_to_tail`. */
  function CorrectedTails(pages: seq<seq<char>>): (r: seq<string>)
    ensures |r| == |pages|
    ensures forall i :: 0 <= i < |pages| ==>
              r[i] == if |pages[i]| == 10 then pages[i][1..] + [pages[i][0]] else pages[i]
  {
    TailRotations(pages);
    seq(|pages|, i requires 0 <= i < |pages| => ZeroToTail(pages[i]))
  }

  /** The QSL command with the intended `zero_to_tail`. */
  function CorrectedQuickLockoutCommand(pages: seq<seq<char>>): (r: string)
    ensures |pages| >= 1 ==> r == Line(["QSL"] + CorrectedTails(pages))
  {
    if |pages| >= 1 then LineNested("QSL", CorrectedTails(pages)); Line(["QSL", Line(CorrectedTails(pages))])
    else Line(["QSL", Line(CorrectedTails(pages))])
  }

  /** Every field after the first of `f`, ten-character ones with their
      last two characters exchanged. */
  function SwappedPages(f: seq<string>): (r: seq<string>)
    requires |f| == 11
    ensures |r| == 10
  {
    seq(10, i requires 0 <= i < 10 => SwapLastTwo(f[i + 1]))
  }

  /** Pages read from a QSL reply and not changed go back out of
      `set_scan_settings` as the reply with the last two characters of every
      ten-character page exchanged; other pages come back as they were. */
  lemma QuickLockoutWrittenBack(res: string)
    requires QuickLockoutPages(res).Success?
    ensures QuickLockoutCommand(QuickLockoutPages(res).value) == Line(["QSL"] + SwappedPages(Split(res, ',')))
  {
    var f := Split(res, ',');
    var pages := QuickLockoutPages(res).value;
    forall i | 0 <= i < 10 ensures Tails(pages)[i] == SwappedPages(f)[i] {
      HeadThenTailAsWritten(f[i + 1]);
    }
    assert Tails(pages) == SwappedPages(f);
    LineNested("QSL", SwappedPages(f));
  }

  /** With the intended `zero_to_tail`, pages read from a QSL reply and not
      changed are written back as the very reply they came from. */
  lemma CorrectedQuickLockoutWrittenBack(res: string)
    requires QuickLockoutPages(res).Success? && Split(res, ',')[0] == "QSL"
    ensures CorrectedQuickLockoutCommand(QuickLockoutPages(res).value) == res
  {
    var f := Split(res, ',');
    var pages := QuickLockoutPages(res).value;
    forall i | 0 <= i < 10 ensures CorrectedTails(pages)[i] == f[1..][i] {
      TailUndoesHead(f[i + 1]);
    }
    assert CorrectedTails(pages) == f[1..];
    LineNested("QSL", f[1..]);
    assert f == [f[0]] + f[1..];
    JoinSplit(res, ',');
  }

  /** `t` is ten comma-free pages, and `Split` of the QSL line over them
      gives the mnemonic and the pages back. */
  lemma QuickLockoutLineSplits(t: seq<string>)
    requires |t| == 10 && forall i :: 0 <= i < 10 ==> ',' !in t[i]
    ensures Split(Line(["QSL", Line(t)]), ',') == ["QSL"] + t
  {
    var all := ["QSL"] + t;
    assert Separable(all, ',') by {
      forall j | 0 <= j < |all| ensures ',' !in all[j] {
        if j > 0 { assert all[j] == t[j - 1]; }
      }
    }
    LineNested("QSL", t);
    SplitJoin(all, ',');
  }

  /** Each page of `Tails(pages)` stays comma-free, and `zero_to_head`
      turns it into the page with its ends exchanged. */
  lemma TailsReadBack(pages: seq<seq<char>>)
    requires |pages| == 10 && forall i :: 0 <= i < 10 ==> ',' !in pages[i]
    ensures forall i :: 0 <= i < 10 ==> ',' !in Tails(pages)[i] && ZeroToHead(Tails(pages)[i]) == SwapEnds(pages[i])
  {
    var t := Tails(pages);
    forall i | 0 <= i < 10 ensures ',' !in t[i] && ZeroToHead(t[i]) == SwapEnds(pages[i]) {
      TailAsWrittenShape(pages[i]);
      TailAsWrittenThenHead(pages[i]);
      if |pages[i]| == 10 {
        assert forall c :: c in pages[i][1..9] + [pages[i][0], pages[i][9]] ==> c in pages[i];
      }
    }
  }

  /** Ten comma-free pages written by `set_scan_settings` read back each
      with its first and last characters exchanged when it has ten. */
  lemma QuickLockoutReadBack(pages: seq<seq<char>>)
    requires |pages| == 10 && forall i :: 0 <= i < 10 ==> ',' !in pages[i]
    ensures QuickLockoutPages(QuickLockoutCommand(pages))
            == Success(seq(10, i requires 0 <= i < 10 => SwapEnds(pages[i])))
  {
    var t := Tails(pages);
    TailsReadBack(pages);
    QuickLockoutLineSplits(t);
    var f := Split(QuickLockoutCommand(pages), ',');
    assert f == ["QSL"] + t;
    var back := seq(10, i requires 0 <= i < 10 => ZeroToHead(f[i + 1]));
    assert QuickLockoutPages(QuickLockoutCommand(pages)) == Success(back);
    var want := seq(10, i requires 0 <= i < 10 => SwapEnds(pages[i]));
    forall i | 0 <= i < 10 ensures back[i] == want[i] {
      assert f[i + 1] == t[i];
    }
    assert back == want;
  }

  /** With the intended `zero_to_tail`, ten comma-free pages read back as
      the same pages. */
  lemma CorrectedQuickLockoutReadBack(pages: seq<seq<char>>)
    requires |pages| == 10 && forall i :: 0 <= i < 10 ==> ',' !in pages[i]
    ensures QuickLockoutPages(CorrectedQuickLockoutCommand(pages)) == Success(pages)
  {
    var t := CorrectedTails(pages);
    forall i | 0 <= i < 10 ensures ',' !in t[i] && ZeroToHead(t[i]) == pages[i] {
      TailRotates(pages[i]);
      HeadUndoesTail(pages[i]);
      if |pages[i]| == 10 {
        assert forall c :: c in pages[i][1..] + [pages[i][0]] ==> c in pages[i];
      }
    }
    QuickLockoutLineSplits(t);
    var f := Split(CorrectedQuickLockoutCommand(pages), ',');
    assert f == ["QSL"] + t;
    var back := seq(10, i requires 0 <= i < 10 => ZeroToHead(f[i + 1]));
    assert QuickLockoutPages(CorrectedQuickLockoutCommand(pages)) == Success(back);
    forall i | 0 <= i < 10 ensures back[i] == pages[i] {
      assert f[i + 1] == t[i];
    }
    assert back == pages;
  }

  // ---------------------------------------------------------------- the scanner

  type SystemFetcher = (Device, string) -> Fetched<SystemValue>

  /** The scanner's state: the program mode flag, the system index head and
      tail (`None` until SIH and SIT are read), the systems under their
      indices and the quick-lockout pages. */
  datatype ScannerValue = ScannerValue(programMode: bool, head: Option<string>, tail: Option<string>,
                                       systems: map<string, SystemValue>, quickLockout: seq<seq<char>>)

  /** `UnidenScanner.__init__`, leaving out the port. */
  function ScannerInit(): ScannerValue
  {
    ScannerValue(false, None, None, map[], [])
  }

  /** What one step of the scanner did: the commands sent, the device
      afterwards, the state afterwards (whatever was assigned before an
      error stays) and the outcome. */
  datatype Scanned = Scanned(sent: seq<string>, dev: Device, state: ScannerValue, outcome: Outcome<Error>)

  /** `b` after `a`. */
  function Followed(a: Scanned, b: Scanned): Scanned
  {
    Scanned(a.sent + b.sent, b.dev, b.state, b.outcome)
  }

  /** `enter_program_mode`: PRG, and the flag is set once `raw` returns. */
  function ProgramEntered(dev: Device, v: ScannerValue): (s: Scanned)
    ensures s.sent == ["PRG"] && s.state.systems == v.systems
    ensures s.state == if s.outcome.Pass? then v.(programMode := true) else v
  {
    var x := Ask(dev, "PRG");
    if x.result.Failure? then Scanned(x.sent, x.dev, v, Fail(x.result.error))
    else Scanned(x.sent, x.dev, v.(programMode := true), Pass)
  }

  /** `exit_program_mode`: EPG, and the flag is cleared once `raw` returns. */
  function ProgramExited(dev: Device, v: ScannerValue): (s: Scanned)
    ensures s.sent == ["EPG"] && s.state.systems == v.systems
    ensures s.state == if s.outcome.Pass? then v.(programMode := false) else v
  {
    var x := Ask(dev, "EPG");
    if x.result.Failure? then Scanned(x.sent, x.dev, v, Fail(x.result.error))
    else Scanned(x.sent, x.dev, v.(programMode := false), Pass)
  }

  /** `if not self.program_mode: self.enter_program_mode()`. */
  function EnteredIfNeeded(dev: Device, v: ScannerValue): (s: Scanned)
    ensures s.state.systems == v.systems
    ensures s.state == if s.outcome.Pass? then v.(programMode := true) else v
    ensures s.sent == if v.programMode then [] else ["PRG"]
  {
    if v.programMode then Scanned([], dev, v, Pass) else ProgramEntered(dev, v)
  }

  /** SIH and SIT are both sent before either reply is unpacked; the head is
      assigned before the tail's reply is unpacked. */
  function HeadsRead(dev: Device, v: ScannerValue): (s: Scanned)
    ensures s.state.systems == v.systems && s.state.programMode == v.programMode
    ensures |s.sent| >= 1 && s.sent[0] == "SIH"
    ensures s.outcome.Pass? ==> s.sent == ["SIH", "SIT"] && s.state.head.Some? && s.state.tail.Some?
    ensures s.outcome.Pass? ==> AskSecond(dev, "SIH").result == Success(s.state.head.value)
    ensures s.outcome.Pass? ==> AskSecond(Ask(dev, "SIH").dev, "SIT").result == Success(s.state.tail.value)
  {
    var a := Ask(dev, "SIH");
    if a.result.Failure? then Scanned(a.sent, a.dev, v, Fail(a.result.error))
    else
      var b := Ask(a.dev, "SIT");
      var sent := a.sent + b.sent;
      if b.result.Failure? then Scanned(sent, b.dev, v, Fail(b.result.error))
      else match Second(a.result.value)
      case Failure(e) => Scanned(sent, b.dev, v, Fail(e))
      case Success(h) =>
        var v1 := v.(head := Some(h));
        match Second(b.result.value)
        case Failure(e) => Scanned(sent, b.dev, v1, Fail(e))
        case Success(t) => Scanned(sent, b.dev, v1.(tail := Some(t)), Pass)
  }

  /** The system walk from the head, each system stored as it is read. */
  function SystemsRead(dev: Device, v: ScannerValue, fetch: SystemFetcher, fuel: nat): Scanned
    requires v.head.Some?
  {
    var w := Walk(fetch, dev, v.head.value, fuel);
    Scanned(w.sent, w.dev, v.(systems := v.systems + Stored(w.visits)), w.outcome)
  }

  /** QSL: eleven fields, the ten pages stored through `zero_to_head`. */
  function QuickLockoutRead(dev: Device, v: ScannerValue): (s: Scanned)
    ensures s.sent == ["QSL"]
    ensures s.state.systems == v.systems && s.state.programMode == v.programMode
    ensures s.outcome.Pass? ==> |s.state.quickLockout| == 10
  {
    var x := Ask(dev, "QSL");
    if x.result.Failure? then Scanned(x.sent, x.dev, v, Fail(x.result.error))
    else match QuickLockoutPages(x.result.value)
    case Failure(e) => Scanned(x.sent, x.dev, v, Fail(e))
    case Success(p) => Scanned(x.sent, x.dev, v.(quickLockout := p), Pass)
  }

  /** The end of `get_scan_settings`: QSL, then leaving program mode. */
  function ScanTail(dev: Device, v: ScannerValue): (s: Scanned)
    ensures s.state.systems == v.systems
    ensures s.state.programMode == if s.outcome.Pass? then false else v.programMode
    ensures s.outcome.Pass? ==> s.sent == ["QSL", "EPG"] && |s.state.quickLockout| == 10
  {
    var q := QuickLockoutRead(dev, v);
    if q.outcome.Fail? then q else Followed(q, ProgramExited(q.dev, q.state))
  }

  function ScanFromSystems(dev: Device, v: ScannerValue, fetch: SystemFetcher, fuel: nat): Scanned
    requires v.head.Some?
  {
    var w := SystemsRead(dev, v, fetch, fuel);
    if w.outcome.Fail? then w else Followed(w, ScanTail(w.dev, w.state))
  }

  function ScanFromHeads(dev: Device, v: ScannerValue, fetch: SystemFetcher, fuel: nat): Scanned
  {
    var h := HeadsRead(dev, v);
    if h.outcome.Fail? then h else Followed(h, ScanFromSystems(h.dev, h.state, fetch, fuel))
  }

  function ScanSettingsWith(dev: Device, v: ScannerValue, fetch: SystemFetcher, fuel: nat): Scanned
  {
    var e := EnteredIfNeeded(dev, v);
    if e.outcome.Fail? then e else Followed(e, ScanFromHeads(e.dev, e.state, fetch, fuel))
  }

  /** `get_scan_settings`, every system fetched as `System.get_data` does. */
  function ScanSettings(dev: Device, v: ScannerValue, fuel: nat): Scanned
  {
    ScanSettingsWith(dev, v, FetchSystem(fuel), fuel)
  }

  /** `get_scan_settings` with a larger bound, handed on to every system's
      own walks, does exactly the same once it ended within the smaller. */
  lemma ScanSettingsFuel(dev: Device, v: ScannerValue, fuel: nat, more: nat)
    requires fuel <= more
    requires ScanSettings(dev, v, fuel).outcome != Fail(Diverges)
    ensures ScanSettings(dev, v, more) == ScanSettings(dev, v, fuel)
  {
    FetchSystemFuel(fuel, more);
    var e := EnteredIfNeeded(dev, v);
    if e.outcome.Pass? {
      var h := HeadsRead(e.dev, e.state);
      if h.outcome.Pass? {
        WalkFuelsAgree(FetchSystem(fuel), FetchSystem(more), h.dev, h.state.head.value, fuel, more);
      }
    }
  }

  /** Every system `System.get_data` hands back names the index it was
      fetched from. */
  lemma FetchSystemKeyed(fuel: nat)
    ensures forall d: Device, i: string :: FetchSystem(fuel)(d, i).result.Success? ==>
              SystemIndex(FetchSystem(fuel)(d, i).result.value.0) == i
  {
  }

  /** `get_scan_settings` keeps every system under its own index. */
  lemma ScanSettingsKeyed(dev: Device, v: ScannerValue, fuel: nat)
    requires Keyed(v.systems, SystemIndex)
    ensures Keyed(ScanSettings(dev, v, fuel).state.systems, SystemIndex)
  {
    FetchSystemKeyed(fuel);
    ScanSettingsWithKeyed(dev, v, FetchSystem(fuel), fuel);
  }

  /** The same for any fetch that names each system by its index. */
  lemma ScanSettingsWithKeyed(dev: Device, v: ScannerValue, fetch: SystemFetcher, fuel: nat)
    requires Keyed(v.systems, SystemIndex)
    requires forall d, i :: fetch(d, i).result.Success? ==> SystemIndex(fetch(d, i).result.value.0) == i
    ensures Keyed(ScanSettingsWith(dev, v, fetch, fuel).state.systems, SystemIndex)
  {
    var e := EnteredIfNeeded(dev, v);
    if e.outcome.Pass? {
      var h := HeadsRead(e.dev, e.state);
      if h.outcome.Pass? {
        var w := Walk(fetch, h.dev, h.state.head.value, fuel);
        WalkKeyed(fetch, SystemIndex, h.dev, h.state.head.value, fuel);
        StoredKeyed(v.systems, w.visits, SystemIndex);
      }
    }
  }

  /** How a read of the settings ends: a full read with QSL and EPG, ten
      pages and the flag off; a read that raised with the flag at `mode`. */
  ghost predicate EndsRead(s: Scanned, mode: bool)
  {
    (s.outcome.Pass? ==>
       !s.state.programMode && |s.state.quickLockout| == 10
       && |s.sent| >= 2 && s.sent[|s.sent| - 2..] == ["QSL", "EPG"])
    && (s.outcome.Fail? ==> s.state.programMode == mode)
  }

  /** Commands sent before a read do not change how it ends. */
  lemma FollowedEndsRead(a: Scanned, b: Scanned, mode: bool)
    requires EndsRead(b, mode)
    ensures EndsRead(Followed(a, b), mode)
  {
    var s := a.sent + b.sent;
    if b.outcome.Pass? {
      assert s[|s| - 2..] == b.sent[|b.sent| - 2..];
    }
  }

  /** Everything after entering program mode: SIH goes first, and the read
      ends as `EndsRead` says with the flag it started with. */
  lemma ScanFromHeadsMode(dev: Device, v: ScannerValue, fetch: SystemFetcher, fuel: nat)
    ensures var s := ScanFromHeads(dev, v, fetch, fuel);
            |s.sent| >= 1 && s.sent[0] == "SIH" && EndsRead(s, v.programMode)
  {
    var h := HeadsRead(dev, v);
    if h.outcome.Pass? {
      var w := SystemsRead(h.dev, h.state, fetch, fuel);
      if w.outcome.Pass? {
        var t := ScanTail(w.dev, w.state);
        FollowedEndsRead(w, t, w.state.programMode);
        FollowedEndsRead(h, Followed(w, t), h.state.programMode);
      }
    }
  }

  /** The program mode discipline of `get_scan_settings`: PRG goes first
      exactly when the flag was off; a full read ends with QSL and EPG,
      ten pages and the flag off; a read that raised leaves the flag on,
      unless it was PRG itself that raised. */
  lemma ScanSettingsMode(dev: Device, v: ScannerValue, fuel: nat)
    ensures var s := ScanSettings(dev, v, fuel);
            |s.sent| >= 1 && (s.sent[0] == "PRG" <==> !v.programMode)
            && (s.outcome.Pass? ==>
                  !s.state.programMode && |s.state.quickLockout| == 10
                  && |s.sent| >= 2 && s.sent[|s.sent| - 2..] == ["QSL", "EPG"])
            && (s.outcome.Fail? ==> (s.state.programMode <==> v.programMode || |s.sent| > 1))
  {
    ScanSettingsWithMode(dev, v, FetchSystem(fuel), fuel);
  }

  lemma ScanSettingsWithMode(dev: Device, v: ScannerValue, fetch: SystemFetcher, fuel: nat)
    ensures var s := ScanSettingsWith(dev, v, fetch, fuel);
            |s.sent| >= 1 && (s.sent[0] == "PRG" <==> !v.programMode)
            && EndsRead(s, v.programMode || |s.sent| > 1)
  {
    var e := EnteredIfNeeded(dev, v);
    if e.outcome.Pass? {
      var rest := ScanFromHeads(e.dev, e.state, fetch, fuel);
      ScanFromHeadsMode(e.dev, e.state, fetch, fuel);
      FollowedEndsRead(e, rest, true);
      assert Followed(e, rest).sent == e.sent + rest.sent;
      assert |rest.sent| >= 1 && rest.sent[0] == "SIH";
    }
  }

  /** Pages read by QSL and not changed go back out of `set_scan_settings`
      as the reply the read got, with the last two characters of every
      ten-character page exchanged. */
  lemma QuickLockoutReadWrittenBack(dev: Device, v: ScannerValue)
    requires QuickLockoutRead(dev, v).outcome.Pass?
    ensures |Split(Respond(dev, "QSL").text, ',')| == 11
    ensures QuickLockoutCommand(QuickLockoutRead(dev, v).state.quickLockout)
            == Line(["QSL"] + SwappedPages(Split(Respond(dev, "QSL").text, ',')))
  {
    QuickLockoutWrittenBack(Respond(dev, "QSL").text);
  }

  /** With the intended `zero_to_tail`, pages read by QSL and not changed
      are sent back as the very reply the read got. */
  lemma CorrectedQuickLockoutReadWrittenBack(dev: Device, v: ScannerValue)
    requires QuickLockoutRead(dev, v).outcome.Pass?
    requires Split(Respond(dev, "QSL").text, ',')[0] == "QSL"
    ensures CorrectedQuickLockoutCommand(QuickLockoutRead(dev, v).state.quickLockout) == Respond(dev, "QSL").text
  {
    CorrectedQuickLockoutWrittenBack(Respond(dev, "QSL").text);
  }

  /** The orders in which `set_scan_settings` meets one system's groups,
      their channels and talk groups, its sites and their frequencies. */
  datatype SystemOrder = SystemOrder(groups: seq<string>, channels: seq<seq<string>>, tgids: seq<seq<string>>,
                                     sites: seq<string>, frqs: seq<seq<string>>)

  ghost predicate OrderListed(v: SystemValue, o: SystemOrder)
  {
    GroupOrdersListed(v.groups, o.groups, o.channels, o.tgids) && SiteOrdersListed(v.sites, o.sites, o.frqs)
  }

  ghost predicate OrdersFit(m: map<string, SystemValue>, order: seq<string>, orders: seq<SystemOrder>)
  {
    |orders| == |order| && forall i :: 0 <= i < |order| ==> order[i] in m && OrderListed(m[order[i]], orders[i])
  }

  /** `order` is an iteration order of the systems and each system's own
      orders are listed beside it. */
  ghost predicate OrdersListed(m: map<string, SystemValue>, order: seq<string>, orders: seq<SystemOrder>)
  {
    ListsKeys(order, m) && OrdersFit(m, order, orders)
  }

  /** The orders of one system's children. */
  method OrderOf(v: SystemValue) returns (o: SystemOrder)
    ensures OrderListed(v, o)
  {
    var g, c, t := GroupOrders(v.groups);
    var s, f := SiteOrders(v.sites);
    o := SystemOrder(g, c, t, s, f);
  }

  /** The orders of every system, in some order of the systems. */
  method SystemOrders(m: map<string, SystemValue>) returns (order: seq<string>, orders: seq<SystemOrder>)
    ensures OrdersListed(m, order, orders)
  {
    order := KeyOrder(m);
    orders := [];
    while |orders| < |order|
      invariant |orders| <= |order|
      invariant forall i :: 0 <= i < |orders| ==> OrderListed(m[order[i]], orders[i])
    {
      var o := OrderOf(m[order[|orders|]]);
      orders := orders + [o];
    }
  }

  /** `for system in self.systems.values(): system.set_data()`. */
  function SystemsLines(m: map<string, SystemValue>, order: seq<string>, orders: seq<SystemOrder>): seq<string>
    requires OrdersFit(m, order, orders)
    decreases |order|
  {
    if |order| == 0 then []
    else
      var v := m[order[0]];
      var o := orders[0];
      SystemLines(v, o.groups, o.channels, o.tgids, o.sites, o.frqs)
      + SystemsLines(m, order[1..], orders[1..])
  }

  /** What `set_scan_settings` sends once in program mode: QSL, every
      system's set commands, and EPG. */
  function ScanSetLines(pages: seq<seq<char>>, m: map<string, SystemValue>, order: seq<string>,
                        orders: seq<SystemOrder>): (r: seq<string>)
    requires OrdersFit(m, order, orders)
    ensures |r| == |SystemsLines(m, order, orders)| + 2
    ensures r[0] == QuickLockoutCommand(pages) && r[|r| - 1] == "EPG"
    ensures r[1..|r| - 1] == SystemsLines(m, order, orders)
  {
    [QuickLockoutCommand(pages)] + SystemsLines(m, order, orders) + ["EPG"]
  }

  class Scanner {
    const link: Link
    var programMode: bool
    var systemIndexHead: Option<string>
    var systemIndexTail: Option<string>
    var systems: map<string, SystemValue>
    var quickLockout: seq<seq<char>>

    /** Every system sits under its own index. */
    ghost predicate Valid()
      reads this
    {
      Keyed(systems, SystemIndex)
    }

    function Value(): ScannerValue
      reads this
    {
      ScannerValue(programMode, systemIndexHead, systemIndexTail, systems, quickLockout)
    }

    /** The link and the scanner are where step `s` left them, the link's
        log having held `log0` before it. */
    ghost predicate Arrived(log0: seq<string>, s: Scanned)
      reads this, link
    {
      link.device == s.dev && link.log == log0 + s.sent && Value() == s.state
    }

    /** `UnidenScanner.__init__` on an open link. */
    constructor (link: Link)
      ensures this.link == link
      ensures Valid()
      ensures Value() == ScannerInit()
    {
      this.link := link;
      programMode := false;
      systemIndexHead := None;
      systemIndexTail := None;
      systems := map[];
      quickLockout := [];
    }

    /** `enter_program_mode`. */
    method EnterProgramMode() returns (r: Outcome<Error>)
      modifies this, link
      ensures systems == old(systems)
      ensures var s := ProgramEntered(old(link.device), old(Value()));
              Arrived(old(link.log), s) && r == s.outcome
    {
      var res := link.Raw("PRG");
      if res.Failure? {
        return Fail(res.error);
      }
      programMode := true;
      r := Pass;
    }

    /** `exit_program_mode`, whose `None` the callers read as failure. */
    method ExitProgramMode() returns (r: Outcome<Error>)
      modifies this, link
      ensures systems == old(systems)
      ensures var s := ProgramExited(old(link.device), old(Value()));
              Arrived(old(link.log), s) && r == s.outcome
    {
      var res := link.Raw("EPG");
      if res.Failure? {
        return Fail(res.error);
      }
      programMode := false;
      r := Pass;
    }

    /** Program mode is entered only when the flag says it is not on. */
    method EnterIfNeeded() returns (r: Outcome<Error>)
      modifies this, link
      ensures systems == old(systems)
      ensures var s := EnteredIfNeeded(old(link.device), old(Value()));
              Arrived(old(link.log), s) && r == s.outcome
    {
      if !programMode {
        r := EnterProgramMode();
      } else {
        r := Pass;
        assert old(link.log) + [] == link.log;
      }
    }

    /** SIH, SIT, then the head from SIH's reply and the tail from SIT's. */
    method ReadHeads() returns (r: Outcome<Error>)
      modifies this, link
      ensures systems == old(systems)
      ensures var s := HeadsRead(old(link.device), old(Value()));
              Arrived(old(link.log), s) && r == s.outcome
    {
      var sih := link.Raw("SIH");
      if sih.Failure? {
        return Fail(sih.error);
      }
      var sit := link.Raw("SIT");
      if sit.Failure? {
        return Fail(sit.error);
      }
      var h := Second(sih.value);
      if h.Failure? {
        return Fail(h.error);
      }
      systemIndexHead := Some(h.value);
      var t := Second(sit.value);
      if t.Failure? {
        return Fail(t.error);
      }
      systemIndexTail := Some(t.value);
      r := Pass;
    }

    /** QSL and its ten pages. */
    method ReadQuickLockout() returns (r: Outcome<Error>)
      modifies this, link
      ensures systems == old(systems)
      ensures var s := QuickLockoutRead(old(link.device), old(Value()));
              Arrived(old(link.log), s) && r == s.outcome
    {
      var res := link.Raw("QSL");
      if res.Failure? {
        return Fail(res.error);
      }
      var p := QuickLockoutPages(res.value);
      if p.Failure? {
        return Fail(p.error);
      }
      quickLockout := p.value;
      r := Pass;
    }

    /** A new `System(self, idx)` and its `get_data`: the system's value, if
        that succeeds, and its forward index. */
    method NewSystem(idx: string, ghost fetch: SystemFetcher, ghost fuel: nat)
      returns (r: Outcome<Error>, next: string, value: SystemValue, ghost fc: Fetched<SystemValue>)
      requires Agrees(fetch, FetchSystem(fuel))
      requires fetch(link.device, idx).result != Failure(Diverges)
      modifies link
      ensures fc == fetch(old(link.device), idx)
      ensures link.device == fc.dev && link.log == old(link.log) + fc.sent
      ensures fc.result.Success? ==> r == Pass && fc.result.value == (value, next) && value.index == idx
      ensures fc.result.Failure? ==> r == Fail(fc.result.error)
    {
      fc := FetchSystem(fuel)(link.device, idx);
      var s := new System(link, idx);
      r := s.GetData(fuel);
      value := s.Value();
      if r.Fail? {
        return r, idx, value, fc;
      }
      next := s.links.value.fwd;
    }

    /** Step `idx` of the system walk over `fetch`, which agrees with the
        scanner's system fetch. */
    method StepSystem(ghost fetch: SystemFetcher, ghost fuel: nat, idx: string,
                      ghost whole: Walked<SystemValue>, ghost sent: seq<string>, ghost visits: seq<Visit<SystemValue>>,
                      ghost f: nat, ghost log0: seq<string>, ghost map0: map<string, SystemValue>)
      returns (r: Outcome<Error>, next: string, ghost sent': seq<string>, ghost visits': seq<Visit<SystemValue>>)
      requires Agrees(fetch, FetchSystem(fuel))
      requires WalkAt(fetch, whole, sent, visits, link.device, idx, f)
      requires ParseInt(idx).Some? && !IsEnd(idx) && whole.outcome != Fail(Diverges)
      requires link.log == log0 + sent && systems == map0 + Stored(visits) && Keyed(systems, SystemIndex)
      modifies this, link
      ensures programMode == old(programMode) && quickLockout == old(quickLockout)
      ensures systemIndexHead == old(systemIndexHead) && systemIndexTail == old(systemIndexTail)
      ensures Keyed(systems, SystemIndex)
      ensures link.log == log0 + sent'
      ensures r.Pass? ==>
                f > 0 && systems == map0 + Stored(visits')
                && WalkAt(fetch, whole, sent', visits', link.device, next, f - 1)
      ensures r.Fail? ==> systems == map0 + Stored(visits) && whole == Walked(sent', link.device, visits, r)
    {
      WalkAtBounded(fetch, whole, sent, visits, link.device, idx, f);
      var value;
      ghost var fc;
      r, next, value, fc := NewSystem(idx, fetch, fuel);
      WalkAtNext(fetch, whole, sent, visits, old(link.device), idx, f, fc);
      sent' := sent + fc.sent;
      assert log0 + sent' == (log0 + sent) + fc.sent;
      if r.Fail? {
        return r, idx, sent', visits;
      }
      ghost var vis := Visit(idx, value, next);
      StoreOneMore(map0, visits, vis);
      systems := systems[idx := value];
      visits' := visits + [vis];
    }

    /** The system walk of `get_scan_settings`: from `head`, fetch a system,
        store it under its index and move to its forward index, until -1. */
    method WalkSystems(head: string, ghost fetch: SystemFetcher, ghost fuel: nat)
      returns (r: Outcome<Error>, ghost visits: seq<Visit<SystemValue>>)
      requires Agrees(fetch, FetchSystem(fuel))
      requires Walk(fetch, link.device, head, fuel).outcome != Fail(Diverges)
      requires Keyed(systems, SystemIndex)
      modifies this, link
      ensures var w := Walk(fetch, old(link.device), head, fuel);
              link.device == w.dev && link.log == old(link.log) + w.sent
              && r == w.outcome && visits == w.visits
      ensures systems == old(systems) + Stored(visits) && Keyed(systems, SystemIndex)
      ensures Value() == old(Value()).(systems := systems)
    {
      ghost var whole := Walk(fetch, link.device, head, fuel);
      WalkAtStart(fetch, link.device, head, fuel);
      ghost var sent: seq<string> := [];
      ghost var f := fuel;
      visits := [];
      var idx := head;
      while true
        invariant WalkAt(fetch, whole, sent, visits, link.device, idx, f)
        invariant link.log == old(link.log) + sent
        invariant systems == old(systems) + Stored(visits) && Keyed(systems, SystemIndex)
        invariant programMode == old(programMode) && quickLockout == old(quickLockout)
        invariant systemIndexHead == old(systemIndexHead) && systemIndexTail == old(systemIndexTail)
        decreases f
      {
        var n := ParseInt(idx);
        if n.None? || n.value == -1 {
          WalkAtEnd(fetch, whole, sent, visits, link.device, idx, f);
          return if n.None? then Fail(IntError(idx)) else Pass, visits;
        }
        var res, next, sent', visits' := StepSystem(fetch, fuel, idx, whole, sent, visits, f,
                                                 old(link.log), old(systems));
        if res.Fail? {
          return res, visits;
        }
        sent, visits, idx, f := sent', visits', next, f - 1;
      }
    }

    /** QSL, then leaving program mode. */
    method GetTail() returns (r: Outcome<Error>)
      modifies this, link
      ensures systems == old(systems)
      ensures var s := ScanTail(old(link.device), old(Value()));
              Arrived(old(link.log), s) && r == s.outcome
    {
      ghost var q := QuickLockoutRead(link.device, Value());
      r := ReadQuickLockout();
      if r.Fail? {
        return;
      }
      ghost var e := ProgramExited(link.device, Value());
      r := ExitProgramMode();
      ConcatAssoc(old(link.log), q.sent, e.sent);
    }

    /** The system walk, then the tail. */
    method GetFromSystems(ghost fetch: SystemFetcher, ghost fuel: nat) returns (r: Outcome<Error>)
      requires Valid() && Agrees(fetch, FetchSystem(fuel)) && systemIndexHead.Some?
      requires ScanFromSystems(link.device, Value(), fetch, fuel).outcome != Fail(Diverges)
      modifies this, link
      ensures Valid()
      ensures var s := ScanFromSystems(old(link.device), old(Value()), fetch, fuel);
              Arrived(old(link.log), s) && r == s.outcome
    {
      ghost var w := SystemsRead(link.device, Value(), fetch, fuel);
      ghost var visits;
      r, visits := WalkSystems(systemIndexHead.value, fetch, fuel);
      if r.Fail? {
        return;
      }
      ghost var t := ScanTail(link.device, Value());
      r := GetTail();
      ConcatAssoc(old(link.log), w.sent, t.sent);
    }

    /** SIH and SIT, then the walk and the tail. */
    method GetFromHeads(ghost fetch: SystemFetcher, ghost fuel: nat) returns (r: Outcome<Error>)
      requires Valid() && Agrees(fetch, FetchSystem(fuel))
      requires ScanFromHeads(link.device, Value(), fetch, fuel).outcome != Fail(Diverges)
      modifies this, link
      ensures Valid()
      ensures var s := ScanFromHeads(old(link.device), old(Value()), fetch, fuel);
              Arrived(old(link.log), s) && r == s.outcome
    {
      ghost var h := HeadsRead(link.device, Value());
      r := ReadHeads();
      if r.Fail? {
        return;
      }
      ghost var w := ScanFromSystems(link.device, Value(), fetch, fuel);
      r := GetFromSystems(fetch, fuel);
      ConcatAssoc(old(link.log), h.sent, w.sent);
    }

    /** `get_scan_settings`. It always returns 0: `exit_program_mode`
        returns `None`, so `if not self.exit_program_mode(): return 0` is
        taken. Whatever was read before an error stays. */
    method GetScanSettings(ghost fuel: nat) returns (r: Result<int, Error>)
      requires Valid()
      requires ScanSettings(link.device, Value(), fuel).outcome != Fail(Diverges)
      modifies this, link
      ensures Valid()
      ensures var s := ScanSettings(old(link.device), old(Value()), fuel);
              Arrived(old(link.log), s)
              && r == if s.outcome.Pass? then Success(0) else Failure(s.outcome.error)
    {
      ghost var fetch := FetchSystem(fuel);
      ghost var e := EnteredIfNeeded(link.device, Value());
      var o := EnterIfNeeded();
      if o.Fail? {
        return Failure(o.error);
      }
      ghost var h := ScanFromHeads(link.device, Value(), fetch, fuel);
      o := GetFromHeads(fetch, fuel);
      ConcatAssoc(old(link.log), e.sent, h.sent);
      r := if o.Pass? then Success(0) else Failure(o.error);
    }

    /** `set_scan_settings`: program mode if needed, then QSL with the pages
        through `zero_to_tail`, every system's `set_data`, and EPG; any error
        raised ends the run. It returns 0 for the same reason as
        `get_scan_settings`. */
    method SetScanSettings() returns (r: Result<int, Error>, order: seq<string>, orders: seq<SystemOrder>)
      requires Valid()
      modifies this, link
      ensures Valid()
      ensures Value() == old(Value()).(programMode := programMode)
      ensures OrdersListed(systems, order, orders)
      ensures var e := EnteredIfNeeded(old(link.device), old(Value()));
              var s := Transmit(e.dev, ScanSetLines(quickLockout, systems, order, orders));
              if e.outcome.Fail? then Arrived(old(link.log), e) && r == Failure(e.outcome.error)
              else link.device == s.dev && link.log == old(link.log) + e.sent + s.sent
                   && programMode == !s.outcome.Pass?
                   && r == if s.outcome.Pass? then Success(0) else Failure(s.outcome.error)
    {
      order, orders := SystemOrders(systems);
      var o := EnterIfNeeded();
      if o.Fail? {
        return Failure(o.error), order, orders;
      }
      r := WriteSettings(order, orders);
    }

    /** In program mode: QSL, the systems, EPG; the flag is cleared only
        when EPG returns. */
    method WriteSettings(order: seq<string>, orders: seq<SystemOrder>) returns (r: Result<int, Error>)
      requires OrdersFit(systems, order, orders)
      modifies this, link
      ensures systems == old(systems) && Value() == old(Value()).(programMode := programMode)
      ensures var s := Transmit(old(link.device), ScanSetLines(quickLockout, systems, order, orders));
              link.device == s.dev && link.log == old(link.log) + s.sent
              && programMode == (if s.outcome.Pass? then false else old(programMode))
              && r == if s.outcome.Pass? then Success(0) else Failure(s.outcome.error)
    {
      var o := link.Send(ScanSetLines(quickLockout, systems, order, orders));
      if o.Fail? {
        return Failure(o.error);
      }
      programMode := false;
      r := Success(0);
    }

    /** `push_key`: nothing is sent when a table lookup raises. */
    method PushKey(mode: string, key: string) returns (r: Outcome<Error>)
      modifies link
      ensures var c := KeyCommand(mode, key);
              var s := Transmit(old(link.device), if c.Success? then [c.value] else []);
              link.device == s.dev && link.log == old(link.log) + s.sent
              && r == if c.Success? then s.outcome else Fail(c.error)
    {
      var c := KeyCommand(mode, key);
      if c.Failure? {
        return Fail(c.error);
      }
      r := link.Send([c.value]);
    }

    /** `set_quick_search_hold`: nothing is sent when a check raises. */
    method SetQuickSearchHold(q: QuickSearch, modValues: set<string>) returns (r: Outcome<Error>)
      modifies link
      ensures var c := QuickSearchCommand("QSH", q, modValues);
              var s := Transmit(old(link.device), if c.Success? then [c.value] else []);
              link.device == s.dev && link.log == old(link.log) + s.sent
              && r == if c.Success? then s.outcome else Fail(c.error)
    {
      var c := QuickSearchCommand("QSH", q, modValues);
      if c.Failure? {
        return Fail(c.error);
      }
      r := link.Send([c.value]);
    }

    /** `set_curfrq_reception_status`: QSC, and the RSSI, frequency and
        squelch of its reply. */
    method SetCurfrqReceptionStatus(q: QuickSearch, modValues: set<string>)
      returns (r: Result<(string, string, string), Error>)
      modifies link
      ensures var c := QuickSearchCommand("QSC", q, modValues);
              c.Failure? ==> link.device == old(link.device) && link.log == old(link.log) && r == Failure(c.error)
      ensures var c := QuickSearchCommand("QSC", q, modValues);
              c.Success? ==>
                var x := Ask(old(link.device), c.value);
                link.device == x.dev && link.log == old(link.log) + x.sent
                && r == if x.result.Failure? then Failure(x.result.error) else CurfrqStatus(x.result.value)
    {
      var c := QuickSearchCommand("QSC", q, modValues);
      if c.Failure? {
        return Failure(c.error);
      }
      var res := link.Raw(c.value);
      if res.Failure? {
        return Failure(res.error);
      }
      r := CurfrqStatus(res.value);
    }

    /** `get_reception_status`: GLG, its fields paired with the status keys. */
    method GetReceptionStatus() returns (r: Result<map<string, string>, Error>)
      modifies link
      ensures var x := Ask(old(link.device), "GLG");
              link.device == x.dev && link.log == old(link.log) + x.sent
              && r == if x.result.Failure? then Failure(x.result.error) else Success(ReceptionStatus(x.result.value))
    {
      var res := link.Raw("GLG");
      if res.Failure? {
        return Failure(res.error);
      }
      r := Success(ReceptionStatus(res.value));
    }

    /** `create_system`: CSY with the type and the protect flag, then a
        fresh system under the index the reply names. */
    method CreateSystem(sysType: string, protect: string) returns (r: Result<string, Error>)
      requires Valid()
      modifies this, link
      ensures Valid()
      ensures var x := Ask(old(link.device), Line(["CSY", sysType, protect]));
              link.device == x.dev && link.log == old(link.log) + x.sent && r == Appended(x.result)
      ensures r.Success? ==> systems == old(systems)[r.value := SystemInit(r.value)]
      ensures r.Failure? ==> systems == old(systems)
      ensures Value() == old(Value()).(systems := systems)
    {
      var res := link.Raw(Line(["CSY", sysType, protect]));
      r := Appended(res);
      if r.Success? {
        var s := new System(link, r.value);
        systems := systems[r.value := s.Value()];
      }
    }

    /** `create_system()` with its default arguments: a CNV system, not
        protected. */
    method CreateDefaultSystem() returns (r: Result<string, Error>)
      requires Valid()
      modifies this, link
      ensures Valid()
      ensures var x := Ask(old(link.device), "CSY,CNV,0");
              link.device == x.dev && link.log == old(link.log) + x.sent && r == Appended(x.result)
      ensures r.Success? ==> systems == old(systems)[r.value := SystemInit(r.value)]
      ensures r.Failure? ==> systems == old(systems)
      ensures Value() == old(Value()).(systems := systems)
    {
      assert Line(["CSY", "CNV", "0"]) == "CSY,CNV,0";
      r := CreateSystem("CNV", "0");
    }

    /** `delete_system`: DSY, then the entry under `key` is removed. */
    method DeleteSystem(key: string) returns (r: Outcome<Error>)
      requires Valid()
      modifies this, link
      ensures Valid()
      ensures var x := Ask(old(link.device), Line(["DSY", key]));
              link.device == x.dev && link.log == old(link.log) + x.sent
              && r == Deleted(x.result, key, old(systems).Keys)
      ensures systems == if r.Pass? then old(systems) - {key} else old(systems)
      ensures Value() == old(Value()).(systems := systems)
    {
      var res := link.Raw(Line(["DSY", key]));
      r := Deleted(res, key, systems.Keys);
      if r.Pass? {
        systems := systems - {key};
      }
    }
  }
}
