/** The two loop shapes of the record layer, as specification functions.

    A chain walk (`get_data` of System, Group, Site and `get_scan_settings`)
    starts at a head index and, while the index does not read as -1, fetches
    the record at that index, stores it under the index and moves on to the
    record's forward index. A poll (`get_lockout_tgids`,
    `get_global_lockout_frqs`) repeats one command and collects the second
    field of each reply until that field reads as -1.

    Neither loop has a cycle guard in the source. Both functions take a
    `fuel` bound and report `Diverges` when it runs out; the methods that
    perform the loops require that this does not happen. */
module Chains {
  import opened Wrappers
  import opened Wire
  import opened Errors
  import opened Protocol
  import opened Records

  /** What fetching one record did: the commands sent, the device afterwards,
      and the record with its forward index, or the error raised. */
  datatype Fetched<T> = Fetched(sent: seq<string>, dev: Device, result: Result<(T, string), Error>)

  /** One record stored by a walk: its index, the record and its forward index. */
  datatype Visit<T> = Visit(index: string, record: T, next: string)

  /** What a walk did. On failure `visits` holds the records stored before
      the error, which the source has already put into its dictionary. */
  datatype Walked<T> = Walked(sent: seq<string>, dev: Device, visits: seq<Visit<T>>,
                              outcome: Outcome<Error>)

  function Walk<T>(fetch: (Device, string) -> Fetched<T>, dev: Device, index: string,
                   fuel: nat): Walked<T>
    decreases fuel
  {
    match ParseInt(index)
    case None => Walked([], dev, [], Fail(IntError(index)))
    case Some(n) =>
      if n == -1 then Walked([], dev, [], Pass)
      else if fuel == 0 then Walked([], dev, [], Fail(Diverges))
      else
        var f := fetch(dev, index);
        match f.result
        case Failure(e) => Walked(f.sent, f.dev, [], Fail(e))
        case Success(got) =>
          var rest := Walk(fetch, f.dev, got.1, fuel - 1);
          Walked(f.sent + rest.sent, rest.dev, [Visit(index, got.0, got.1)] + rest.visits,
                 rest.outcome)
  }

  /** The walk done so far followed by the walk still to do. */
  function Then<T>(sent: seq<string>, visits: seq<Visit<T>>, rest: Walked<T>): Walked<T>
  {
    Walked(sent + rest.sent, rest.dev, visits + rest.visits, rest.outcome)
  }

  /** Doing two parts of a walk one after the other. */
  lemma ThenThen<T>(a: seq<string>, va: seq<Visit<T>>, b: seq<string>, vb: seq<Visit<T>>, w: Walked<T>)
    ensures Then(a, va, Then(b, vb, w)) == Then(a + b, va + vb, w)
  {
    assert a + (b + w.sent) == (a + b) + w.sent;
    assert va + (vb + w.visits) == (va + vb) + w.visits;
  }

  /** One step of a walk from an index that is an integer other than -1. */
  lemma WalkStep<T>(fetch: (Device, string) -> Fetched<T>, dev: Device, index: string, fuel: nat)
    requires ParseInt(index).Some? && !IsEnd(index) && fuel > 0
    ensures var f := fetch(dev, index);
            f.result.Success? ==>
              Walk(fetch, dev, index, fuel)
              == Then(f.sent, [Visit(index, f.result.value.0, f.result.value.1)],
                      Walk(fetch, f.dev, f.result.value.1, fuel - 1))
  {
  }

  /** `fetch` gives what `spec` gives at every device and index. The
      trigger is the application of `spec`, so a walk over `fetch` can be
      reasoned about without unfolding `spec` at every step. */
  ghost predicate Agrees<T>(fetch: (Device, string) -> Fetched<T>, spec: (Device, string) -> Fetched<T>)
  {
    forall d: Device, i: string {:trigger spec(d, i)} :: fetch(d, i) == spec(d, i)
  }

  /** The whole walk `whole` is what was sent and stored so far followed by
      the walk from device `d`, index `index` and bound `fuel`. */
  ghost predicate WalkAt<T>(fetch: (Device, string) -> Fetched<T>, whole: Walked<T>, sent: seq<string>,
                            visits: seq<Visit<T>>, d: Device, index: string, fuel: nat)
  {
    whole == Then(sent, visits, Walk(fetch, d, index, fuel))
  }

  lemma WalkAtStart<T>(fetch: (Device, string) -> Fetched<T>, d: Device, index: string, fuel: nat)
    ensures WalkAt(fetch, Walk(fetch, d, index, fuel), [], [], d, index, fuel)
  {
    var w := Walk(fetch, d, index, fuel);
    assert [] + w.sent == w.sent;
    assert [] + w.visits == w.visits;
  }

  /** A walk standing at an index that does not read as an integer other
      than -1 has ended there. */
  lemma WalkAtEnd<T>(fetch: (Device, string) -> Fetched<T>, whole: Walked<T>, sent: seq<string>,
                     visits: seq<Visit<T>>, d: Device, index: string, fuel: nat)
    requires WalkAt(fetch, whole, sent, visits, d, index, fuel)
    requires ParseInt(index).None? || IsEnd(index)
    ensures whole == Walked(sent, d, visits, if IsEnd(index) then Pass else Fail(IntError(index)))
  {
    assert sent + [] == sent;
    assert visits + [] == visits;
  }

  /** A walk that does not run out of its bound has bound left at every
      index it goes on from, and the fetch there does not run out of its own. */
  lemma WalkAtBounded<T>(fetch: (Device, string) -> Fetched<T>, whole: Walked<T>, sent: seq<string>,
                         visits: seq<Visit<T>>, d: Device, index: string, fuel: nat)
    requires WalkAt(fetch, whole, sent, visits, d, index, fuel)
    requires ParseInt(index).Some? && !IsEnd(index)
    requires whole.outcome != Fail(Diverges)
    ensures fuel > 0 && fetch(d, index).result != Failure(Diverges)
  {
  }

  /** One fetch further: a failure ends the walk, a success moves it on. */
  lemma WalkAtNext<T>(fetch: (Device, string) -> Fetched<T>, whole: Walked<T>, sent: seq<string>,
                      visits: seq<Visit<T>>, d: Device, index: string, fuel: nat, got: Fetched<T>)
    requires WalkAt(fetch, whole, sent, visits, d, index, fuel)
    requires ParseInt(index).Some? && !IsEnd(index) && fuel > 0
    requires got == fetch(d, index)
    ensures got.result.Failure? ==> whole == Walked(sent + got.sent, got.dev, visits, Fail(got.result.error))
    ensures got.result.Success? ==>
              WalkAt(fetch, whole, sent + got.sent,
                     visits + [Visit(index, got.result.value.0, got.result.value.1)],
                     got.dev, got.result.value.1, fuel - 1)
  {
    if got.result.Failure? {
      assert visits + [] == visits;
    } else {
      var v := [Visit(index, got.result.value.0, got.result.value.1)];
      ThenThen(sent, visits, got.sent, v, Walk(fetch, got.dev, got.result.value.1, fuel - 1));
    }
  }

  /** The dictionary a walk leaves behind: each record under its own index,
      a later store under the same index replacing an earlier one. */
  function Stored<T>(visits: seq<Visit<T>>): (m: map<string, T>)
    ensures m.Keys == set i | 0 <= i < |visits| :: visits[i].index
  {
    if |visits| == 0 then map[]
    else
      var last := visits[|visits| - 1];
      var m := Stored(visits[..|visits| - 1])[last.index := last.record];
      assert m.Keys == set i | 0 <= i < |visits| :: visits[i].index by {
        var prev := visits[..|visits| - 1];
        forall k | k in m.Keys ensures k in set i | 0 <= i < |visits| :: visits[i].index {
          if k != last.index {
            var j :| 0 <= j < |prev| && prev[j].index == k;
            assert visits[j].index == k;
          }
        }
        forall k | k in set i | 0 <= i < |visits| :: visits[i].index ensures k in m.Keys {
          var j :| 0 <= j < |visits| && visits[j].index == k;
          if j < |visits| - 1 { assert prev[j].index == k; }
        }
      }
      m
  }

  /** `order` lists every key of `m` exactly once: an order in which a
      dictionary's `values()` may come out. */
  ghost predicate ListsKeys<T>(order: seq<string>, m: map<string, T>)
  {
    (forall i, j :: 0 <= i < j < |order| ==> order[i] != order[j])
    && (forall k :: k in m <==> k in order)
  }

  /** Some iteration order of a dictionary; which one is left open, as it is
      for a Python 2 dictionary. */
  method KeyOrder<T>(m: map<string, T>) returns (order: seq<string>)
    ensures ListsKeys(order, m)
    ensures |order| == |m.Keys|
  {
    order := [];
    var rest := m.Keys;
    while rest != {}
      invariant rest !! set k | k in order
      invariant forall k :: k in m <==> k in order || k in rest
      invariant forall i, j :: 0 <= i < j < |order| ==> order[i] != order[j]
      invariant |order| + |rest| == |m.Keys|
      decreases |rest|
    {
      var k :| k in rest;
      order := order + [k];
      rest := rest - {k};
    }
  }

  /** Storing two runs of visits is storing the first and then the second. */
  lemma {:induction false} StoredConcat<T>(a: seq<Visit<T>>, b: seq<Visit<T>>)
    ensures Stored(a + b) == Stored(a) + Stored(b)
    decreases |b|
  {
    if |b| == 0 {
      assert a + b == a;
    } else {
      var b' := b[..|b| - 1];
      assert (a + b)[..|a + b| - 1] == a + b';
      StoredConcat(a, b');
    }
  }

  /** A dictionary stored on top of an empty one is itself. */
  lemma NothingBelow<T>(m: map<string, T>)
    ensures map[] + m == m
  {
  }

  /** Storing no visits on top of a dictionary leaves it as it was. */
  lemma StoreNothing<T>(base: map<string, T>)
    ensures base + Stored<T>([]) == base
  {
  }

  /** Storing one more visit on top of a dictionary is a single update. */
  lemma StoreOneMore<T>(base: map<string, T>, visits: seq<Visit<T>>, v: Visit<T>)
    ensures base + Stored(visits + [v]) == (base + Stored(visits))[v.index := v.record]
  {
    StoredConcat(visits, [v]);
    assert Stored([v]) == map[v.index := v.record] by {
      assert [v][..0] == [];
    }
  }

  /** The record a walk stored last under an index is the one the
      dictionary holds. */
  lemma {:induction false} StoredHoldsLastVisit<T>(visits: seq<Visit<T>>, i: nat)
    requires i < |visits|
    requires forall j :: i < j < |visits| ==> visits[j].index != visits[i].index
    ensures visits[i].index in Stored(visits)
    ensures Stored(visits)[visits[i].index] == visits[i].record
    decreases |visits|
  {
    if i < |visits| - 1 {
      StoredHoldsLastVisit(visits[..|visits| - 1], i);
    }
  }

  /** Every entry of `m` sits under the index `key` reads off it. */
  ghost predicate Keyed<T>(m: map<string, T>, key: T -> string)
  {
    forall k :: k in m ==> key(m[k]) == k
  }

  /** When every fetched record names the index it was fetched from, so does
      every record a walk visits. */
  lemma {:induction false} WalkKeyed<T>(fetch: (Device, string) -> Fetched<T>, key: T -> string,
                                        dev: Device, head: string, fuel: nat)
    requires forall d, i :: fetch(d, i).result.Success? ==> key(fetch(d, i).result.value.0) == i
    ensures forall v :: v in Walk(fetch, dev, head, fuel).visits ==> key(v.record) == v.index
    decreases fuel
  {
    if ParseInt(head).Some? && !IsEnd(head) && fuel > 0 {
      var f := fetch(dev, head);
      if f.result.Success? {
        WalkKeyed(fetch, key, f.dev, f.result.value.1, fuel - 1);
      }
    }
  }

  /** Storing records that name their own index keeps a dictionary keyed. */
  lemma {:induction false} StoredKeyed<T>(base: map<string, T>, visits: seq<Visit<T>>, key: T -> string)
    requires Keyed(base, key)
    requires forall v :: v in visits ==> key(v.record) == v.index
    ensures Keyed(base + Stored(visits), key)
    decreases |visits|
  {
    if |visits| > 0 {
      var prev := visits[..|visits| - 1];
      assert forall v :: v in prev ==> v in visits;
      StoredKeyed(base, prev, key);
      StoreOneMore(base, prev, visits[|visits| - 1]);
      assert prev + [visits[|visits| - 1]] == visits;
    }
  }

  /** The walk follows the chain: it starts at the head, each index is the
      previous record's forward index, no visited index reads as -1, and a
      walk that ends normally ends on an index that reads as -1. */
  lemma {:induction false} WalkFollowsChain<T>(fetch: (Device, string) -> Fetched<T>,
                                              dev: Device, head: string, fuel: nat)
    ensures var w := Walk(fetch, dev, head, fuel);
            (|w.visits| > 0 ==> w.visits[0].index == head)
            && (forall i :: 0 <= i < |w.visits| ==>
                  ParseInt(w.visits[i].index).Some? && !IsEnd(w.visits[i].index))
            && (forall i :: 0 <= i < |w.visits| - 1 ==> w.visits[i + 1].index == w.visits[i].next)
            && (w.outcome.Pass? ==>
                  IsEnd(if |w.visits| == 0 then head else w.visits[|w.visits| - 1].next))
            && |w.visits| <= fuel
    decreases fuel
  {
    var w := Walk(fetch, dev, head, fuel);
    if ParseInt(head).Some? && !IsEnd(head) && fuel > 0 {
      var f := fetch(dev, head);
      if f.result.Success? {
        WalkFollowsChain(fetch, f.dev, f.result.value.1, fuel - 1);
        var rest := Walk(fetch, f.dev, f.result.value.1, fuel - 1);
        assert w.visits == [Visit(head, f.result.value.0, f.result.value.1)] + rest.visits;
        forall i | 0 <= i < |w.visits| - 1 ensures w.visits[i + 1].index == w.visits[i].next {
          if i > 0 { assert w.visits[i + 1] == rest.visits[i] && w.visits[i] == rest.visits[i - 1]; }
        }
        if |rest.visits| > 0 {
          assert w.visits[|w.visits| - 1] == rest.visits[|rest.visits| - 1];
        }
      }
    }
  }

  /** More fuel does not change the outcome of a walk that ended within its
      bound, for fetches that do not depend on the bound. */
  lemma {:induction false} WalkFuelIrrelevant<T>(fetch: (Device, string) -> Fetched<T>,
                                                dev: Device, head: string, fuel: nat, more: nat)
    requires Walk(fetch, dev, head, fuel).outcome != Fail(Diverges)
    requires fuel <= more
    ensures Walk(fetch, dev, head, more) == Walk(fetch, dev, head, fuel)
    decreases fuel
  {
    if ParseInt(head).Some? && !IsEnd(head) {
      var f := fetch(dev, head);
      if f.result.Success? {
        WalkFuelIrrelevant(fetch, f.dev, f.result.value.1, fuel - 1, more - 1);
      }
    }
  }

  /** `wide` does what `narrow` does wherever `narrow` did not run out of
      its bound: a fetch handed a larger bound than another. */
  ghost predicate Extends<T>(narrow: (Device, string) -> Fetched<T>, wide: (Device, string) -> Fetched<T>)
  {
    forall d: Device, i: string {:trigger narrow(d, i)} ::
      narrow(d, i).result != Failure(Diverges) ==> wide(d, i) == narrow(d, i)
  }

  /** A walk that ended within its bound, done again with a larger bound and
      a fetch that extends its own (as a nested walk's fetch does when it is
      handed the larger bound too), does exactly the same. */
  lemma {:induction false} WalkFuelsAgree<T>(narrow: (Device, string) -> Fetched<T>,
                                             wide: (Device, string) -> Fetched<T>,
                                             dev: Device, head: string, fuel: nat, more: nat)
    requires Extends(narrow, wide)
    requires Walk(narrow, dev, head, fuel).outcome != Fail(Diverges)
    requires fuel <= more
    ensures Walk(wide, dev, head, more) == Walk(narrow, dev, head, fuel)
    decreases fuel
  {
    if ParseInt(head).Some? && !IsEnd(head) {
      var f := narrow(dev, head);
      if f.result.Success? {
        WalkFuelsAgree(narrow, wide, f.dev, f.result.value.1, fuel - 1, more - 1);
      }
    }
  }

  /** What a poll did: the commands sent, the device afterwards, the tokens
      collected (the one that failed `int()` included) and the outcome. */
  datatype Polled = Polled(sent: seq<string>, dev: Device, tokens: seq<string>,
                           outcome: Outcome<Error>)

  function Poll(dev: Device, cmd: string, fuel: nat): Polled
    decreases fuel
  {
    if fuel == 0 then Polled([], dev, [], Fail(Diverges))
    else
      var x := AskSecond(dev, cmd);
      match x.result
      case Failure(e) => Polled([cmd], x.dev, [], Fail(e))
      case Success(token) =>
        match ParseInt(token)
        case None => Polled([cmd], x.dev, [token], Fail(IntError(token)))
        case Some(n) =>
          if n == -1 then Polled([cmd], x.dev, [token], Pass)
          else PollThen([cmd], [token], Poll(x.dev, cmd, fuel - 1))
  }

  /** More fuel does not change a poll that ended within its bound. */
  lemma {:induction false} PollFuelIrrelevant(dev: Device, cmd: string, fuel: nat, more: nat)
    requires Poll(dev, cmd, fuel).outcome != Fail(Diverges)
    requires fuel <= more
    ensures Poll(dev, cmd, more) == Poll(dev, cmd, fuel)
    decreases fuel
  {
    var x := AskSecond(dev, cmd);
    if x.result.Success? && ParseInt(x.result.value).Some? && ParseInt(x.result.value).value != -1 {
      PollFuelIrrelevant(x.dev, cmd, fuel - 1, more - 1);
    }
  }

  /** One command whose reply is `MNEMONIC,value`, and the value. */
  function AskSecond(d: Device, cmd: string): (x: Exchange)
    ensures x.sent == [cmd] && x.dev == Ask(d, cmd).dev
    ensures x.result == match Ask(d, cmd).result
                        case Failure(e) => Failure(e)
                        case Success(res) => Second(res)
  {
    var x := Ask(d, cmd);
    Exchange(x.sent, x.dev, if x.result.Failure? then Failure(x.result.error) else Second(x.result.value))
  }

  /** `raw(cmd)` followed by the two-way unpack of its reply. */
  method RawSecond(link: Link, cmd: string) returns (r: Result<string, Error>)
    modifies link
    ensures var x := AskSecond(old(link.device), cmd);
            link.log == old(link.log) + x.sent && link.device == x.dev && r == x.result
  {
    var res := link.Raw(cmd);
    if res.Failure? {
      return Failure(res.error);
    }
    r := Second(res.value);
  }

  /** `cmd` sent `n` times. */
  function Repeated(cmd: string, n: nat): (r: seq<string>)
    ensures |r| == n && forall i :: 0 <= i < n ==> r[i] == cmd
  {
    if n == 0 then [] else [cmd] + Repeated(cmd, n - 1)
  }

  /** A poll that ends normally returns a non-empty list whose last token
      reads as -1 and whose earlier tokens are integers other than -1; it
      sent the command once per token. */
  lemma {:induction false} PollEndsOnMinusOne(dev: Device, cmd: string, fuel: nat)
    ensures var p := Poll(dev, cmd, fuel);
            p.outcome.Pass? ==>
              |p.tokens| >= 1 && IsEnd(p.tokens[|p.tokens| - 1])
              && (forall i :: 0 <= i < |p.tokens| - 1 ==>
                    ParseInt(p.tokens[i]).Some? && !IsEnd(p.tokens[i]))
              && p.sent == Repeated(cmd, |p.tokens|)
    decreases fuel
  {
    if fuel > 0 {
      PollFirst(dev, cmd, fuel);
      var x := AskSecond(dev, cmd);
      if x.result.Success? && ParseInt(x.result.value).Some? && !IsEnd(x.result.value) {
        PollEndsOnMinusOne(x.dev, cmd, fuel - 1);
        PollShapeThen(cmd, x.result.value, Poll(x.dev, cmd, fuel - 1));
      }
    }
  }

  /** The shape of a poll that ended normally, as `PollEndsOnMinusOne` states it. */
  ghost predicate PollShape(p: Polled, cmd: string)
  {
    p.outcome.Pass? ==>
      |p.tokens| >= 1 && IsEnd(p.tokens[|p.tokens| - 1])
      && (forall i :: 0 <= i < |p.tokens| - 1 ==> ParseInt(p.tokens[i]).Some? && !IsEnd(p.tokens[i]))
      && p.sent == Repeated(cmd, |p.tokens|)
  }

  /** An integer token other than -1 in front keeps the shape. */
  lemma PollShapeThen(cmd: string, token: string, rest: Polled)
    requires ParseInt(token).Some? && !IsEnd(token) && PollShape(rest, cmd)
    ensures PollShape(PollThen([cmd], [token], rest), cmd)
  {
    var p := PollThen([cmd], [token], rest);
    if p.outcome.Pass? {
      assert p.tokens == [token] + rest.tokens;
      forall i | 0 <= i < |p.tokens| - 1
        ensures ParseInt(p.tokens[i]).Some? && !IsEnd(p.tokens[i])
      {
        if i > 0 { assert p.tokens[i] == rest.tokens[i - 1]; }
      }
      assert p.tokens[|p.tokens| - 1] == rest.tokens[|rest.tokens| - 1];
    }
  }

  /** The poll done so far followed by the poll still to do. */
  function PollThen(sent: seq<string>, tokens: seq<string>, rest: Polled): Polled
  {
    Polled(sent + rest.sent, rest.dev, tokens + rest.tokens, rest.outcome)
  }

  lemma PollThenNothing(p: Polled)
    ensures PollThen([], [], p) == p
  {
    assert [] + p.sent == p.sent && [] + p.tokens == p.tokens;
  }

  lemma PollThenThen(a: seq<string>, ta: seq<string>, b: seq<string>, tb: seq<string>, p: Polled)
    ensures PollThen(a, ta, PollThen(b, tb, p)) == PollThen(a + b, ta + tb, p)
  {
    assert a + (b + p.sent) == (a + b) + p.sent;
    assert ta + (tb + p.tokens) == (ta + tb) + p.tokens;
  }

  /** One round of a poll that still has fuel. */
  lemma PollFirst(d: Device, cmd: string, f: nat)
    requires f > 0
    ensures var x := AskSecond(d, cmd);
            Poll(d, cmd, f)
            == if x.result.Failure? then Polled([cmd], x.dev, [], Fail(x.result.error))
               else if ParseInt(x.result.value).None? then Polled([cmd], x.dev, [x.result.value], Fail(IntError(x.result.value)))
               else if ParseInt(x.result.value).value == -1 then Polled([cmd], x.dev, [x.result.value], Pass)
               else PollThen([cmd], [x.result.value], Poll(x.dev, cmd, f - 1))
  {
  }

  /** One round of a poll, on the link: send `cmd` and unpack the token,
      stated as the poll it starts. */
  method PollRound(link: Link, cmd: string, ghost f: nat) returns (r: Result<string, Error>)
    requires f > 0
    modifies link
    ensures link.log == old(link.log) + [cmd]
    ensures r.Failure? ==> Poll(old(link.device), cmd, f) == Polled([cmd], link.device, [], Fail(r.error))
    ensures r.Success? && ParseInt(r.value).None? ==>
              Poll(old(link.device), cmd, f) == Polled([cmd], link.device, [r.value], Fail(IntError(r.value)))
    ensures r.Success? && ParseInt(r.value).Some? && IsEnd(r.value) ==>
              Poll(old(link.device), cmd, f) == Polled([cmd], link.device, [r.value], Pass)
    ensures r.Success? && ParseInt(r.value).Some? && !IsEnd(r.value) ==>
              Poll(old(link.device), cmd, f) == PollThen([cmd], [r.value], Poll(link.device, cmd, f - 1))
  {
    PollFirst(link.device, cmd, f);
    r := RawSecond(link, cmd);
  }

  /** The poll `whole` has sent `sent` and collected `tokens` so far, and
      goes on as the poll of `cmd` on `d` with bound `f`. */
  ghost predicate PollAt(whole: Polled, sent: seq<string>, tokens: seq<string>, d: Device, cmd: string, f: nat)
  {
    whole == PollThen(sent, tokens, Poll(d, cmd, f))
  }

  /** One pass of the poll loop, which has sent `sent` and collected
      `tokens` on the way to `whole`: either the poll ends here, or it goes
      on with one bound less. */
  method PollStep(link: Link, cmd: string, ghost whole: Polled, ghost sent: seq<string>,
                  tokens: seq<string>, ghost f: nat, ghost log0: seq<string>)
    returns (done: bool, r: Outcome<Error>, tokens': seq<string>, ghost sent': seq<string>)
    requires PollAt(whole, sent, tokens, link.device, cmd, f)
    requires whole.outcome != Fail(Diverges)
    requires link.log == log0 + sent
    modifies link
    ensures link.log == log0 + sent'
    ensures done ==> whole == Polled(sent', link.device, tokens', r)
    ensures !done ==> f > 0 && PollAt(whole, sent', tokens', link.device, cmd, f - 1)
  {
    ghost var rest := Poll(link.device, cmd, f);
    assert f > 0;
    var token := PollRound(link, cmd, f);
    sent' := sent + [cmd];
    if token.Failure? {
      PollEnd(whole, sent, tokens, rest, [cmd], link.device, [], Fail(token.error));
      return true, Fail(token.error), tokens + [], sent';
    }
    tokens' := tokens + [token.value];
    var n := ParseInt(token.value);
    if n.None? || n.value == -1 {
      r := if n.None? then Fail(IntError(token.value)) else Pass;
      PollEnd(whole, sent, tokens, rest, [cmd], link.device, [token.value], r);
      return true, r, tokens', sent';
    }
    PollThenThen(sent, tokens, [cmd], [token.value], Poll(link.device, cmd, f - 1));
    done, r := false, Pass;
  }

  /** The loop of `get_lockout_tgids` and `get_global_lockout_frqs`: send
      `cmd`, keep the second field of the reply, until that field reads as
      -1. A reply that does not unpack, or a field `int()` rejects, raises. */
  method PollTokens(link: Link, cmd: string, ghost fuel: nat) returns (r: Outcome<Error>, tokens: seq<string>)
    requires Poll(link.device, cmd, fuel).outcome != Fail(Diverges)
    modifies link
    ensures var p := Poll(old(link.device), cmd, fuel);
            link.device == p.dev && link.log == old(link.log) + p.sent
            && r == p.outcome && tokens == p.tokens
  {
    ghost var whole := Poll(link.device, cmd, fuel);
    PollThenNothing(whole);
    r, tokens := PollLoop(link, cmd, whole, fuel);
  }

  /** The loop itself, on the way to the poll `whole`. */
  method PollLoop(link: Link, cmd: string, ghost whole: Polled, ghost fuel: nat)
    returns (r: Outcome<Error>, tokens: seq<string>)
    requires PollAt(whole, [], [], link.device, cmd, fuel)
    requires whole.outcome != Fail(Diverges)
    modifies link
    ensures link.device == whole.dev && link.log == old(link.log) + whole.sent
    ensures r == whole.outcome && tokens == whole.tokens
  {
    ghost var sent: seq<string> := [];
    ghost var f := fuel;
    tokens := [];
    while true
      invariant PollAt(whole, sent, tokens, link.device, cmd, f)
      invariant link.log == old(link.log) + sent
      decreases f
    {
      var done, tokens';
      ghost var sent';
      done, r, tokens', sent' := PollStep(link, cmd, whole, sent, tokens, f, old(link.log));
      if done {
        return r, tokens';
      }
      tokens, sent, f := tokens', sent', f - 1;
    }
  }

  lemma PollEnd(whole: Polled, sent: seq<string>, tokens: seq<string>, rest: Polled,
                sent': seq<string>, dev: Device, tokens': seq<string>, outcome: Outcome<Error>)
    requires whole == PollThen(sent, tokens, rest)
    requires rest == Polled(sent', dev, tokens', outcome)
    ensures whole == Polled(sent + sent', dev, tokens + tokens', outcome)
  {
  }
}
