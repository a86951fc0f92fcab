/** The command/response exchange with the scanner (`UnidenScanner.raw` in
    `pyuniden/classes.py`), from the stripped response onward.

    The serial port is replaced by an abstract `Device`: a fixed table of
    answers to the read commands whose answer is a stored record (`SIN,3`,
    `CIN,17`, ...) and a queue of replies for every other command (the polls,
    the set, append and delete commands, the key presses). A command the table
    does not answer takes the next queued reply; when the queue is empty the
    reply is the empty text, which is what a read timing out gives. */
module Protocol {
  import opened Wrappers
  import opened Wire
  import opened Errors

  /** `ERR_LIST`: the status tokens on which `raw` raises. */
  const ErrList: seq<string> := ["NG", "ORER", "FER", "ERR", ""]

  /** The token `raw` inspects: the second field when the response holds
      exactly one comma, else the whole response. */
  function StatusToken(res: string): (t: string)
    ensures Count(res, ',') == 1 ==> t == Split(res, ',')[1]
    ensures Count(res, ',') != 1 ==> t == res
  {
    if Count(res, ',') == 1 then Split(res, ',')[1] else res
  }

  /** `raw`'s decision on a stripped response: raise `UnidenCommandError`
      when the status token is in `ERR_LIST`, else hand the response back
      unchanged. */
  function Classify(res: string): (r: Result<string, Error>)
    ensures r.Success? <==> StatusToken(res) !in ErrList
    ensures r.Success? ==> r.value == res
    ensures r.Failure? ==> r.error == CommandError(StatusToken(res))
  {
    if StatusToken(res) in ErrList then Failure(CommandError(StatusToken(res))) else Success(res)
  }

  /** An empty response always raises. */
  lemma EmptyResponseFails()
    ensures Classify("") == Failure(CommandError(""))
  {
    assert StatusToken("") == "";
  }

  /** No error token contains a comma. */
  lemma ErrListHasNoComma(t: string)
    requires t in ErrList
    ensures ',' !in t
  {
  }

  /** A response with two or more commas is never rejected, whatever its
      last field says. */
  lemma ManyCommasPass(res: string)
    requires Count(res, ',') >= 2
    ensures Classify(res) == Success(res)
  {
    if res in ErrList {
      ErrListHasNoComma(res);
      CountAbsent(res, ',');
    }
  }

  /** A text without `c` has no occurrence of it. */
  lemma {:induction false} CountAbsent(s: string, c: char)
    requires c !in s
    ensures Count(s, c) == 0
  {
    if |s| > 0 {
      assert c !in s[1..] by {
        forall k | 0 <= k < |s[1..]| ensures s[1..][k] != c { assert s[1..][k] == s[k + 1]; }
      }
      CountAbsent(s[1..], c);
    }
  }

  /** `a,b` with comma-free halves is rejected exactly when `b` is an error
      token, and then `b` is what is reported. */
  lemma OneCommaChecksSecondField(a: string, b: string)
    requires ',' !in a && ',' !in b
    ensures Classify(a + "," + b).Failure? <==> b in ErrList
    ensures Classify(a + "," + b).Failure? ==> Classify(a + "," + b).error == CommandError(b)
  {
    var res := a + "," + b;
    assert Join([a, b], ',') == res by {
      assert Join([a, b], ',') == a + [','] + Join([b], ',');
    }
    SplitJoin([a, b], ',');
    assert Split(res, ',') == [a, b];
  }

  /** A comma-free response is rejected exactly when it is itself an error token. */
  lemma NoCommaChecksWhole(res: string)
    requires ',' !in res
    ensures Classify(res).Failure? <==> res in ErrList
  {
    CountAbsent(res, ',');
  }

  /** The abstract scanner: fixed answers for stored records, a queue for the rest. */
  datatype Device = Device(memory: map<string, string>, replies: seq<string>)

  datatype Reply = Reply(text: string, next: Device)

  /** What the device answers to one command, and the device afterwards. */
  function Respond(d: Device, cmd: string): (r: Reply)
    ensures r.next.memory == d.memory
    ensures cmd in d.memory ==> r == Reply(d.memory[cmd], d)
    ensures cmd !in d.memory && |d.replies| > 0 ==> r == Reply(d.replies[0], d.(replies := d.replies[1..]))
    ensures cmd !in d.memory && |d.replies| == 0 ==> r == Reply("", d)
  {
    if cmd in d.memory then Reply(d.memory[cmd], d)
    else if |d.replies| > 0 then Reply(d.replies[0], d.(replies := d.replies[1..]))
    else Reply("", d)
  }

  /** One `raw` call taken together: what it sent, the device afterwards, and
      what it returned or raised. */
  datatype Exchange = Exchange(sent: seq<string>, dev: Device, result: Result<string, Error>)

  function Ask(d: Device, cmd: string): (x: Exchange)
    ensures x.sent == [cmd]
    ensures x.dev == Respond(d, cmd).next
    ensures x.result == Classify(Respond(d, cmd).text)
  {
    var reply := Respond(d, cmd);
    Exchange([cmd], reply.next, Classify(reply.text))
  }

  /** What a sequence of `raw` calls sends when each one's error ends the
      sequence, as in the `set_data` methods: the commands actually sent, the
      device afterwards and the first error, if any. */
  datatype Sent = Sent(sent: seq<string>, dev: Device, outcome: Outcome<Error>)

  function Transmit(d: Device, cmds: seq<string>): (s: Sent)
    ensures |s.sent| <= |cmds| && s.sent == cmds[..|s.sent|]
    ensures s.outcome.Pass? ==> s.sent == cmds
    decreases |cmds|
  {
    if |cmds| == 0 then Sent([], d, Pass)
    else
      var x := Ask(d, cmds[0]);
      if x.result.Failure? then Sent([cmds[0]], x.dev, Fail(x.result.error))
      else
        var rest := Transmit(x.dev, cmds[1..]);
        Sent([cmds[0]] + rest.sent, rest.dev, rest.outcome)
  }

  /** Sending two batches one after the other is sending their concatenation. */
  lemma {:induction false} TransmitConcat(d: Device, a: seq<string>, b: seq<string>)
    ensures var first := Transmit(d, a);
            Transmit(d, a + b)
            == if first.outcome.Fail? then first
               else var second := Transmit(first.dev, b);
                    Sent(first.sent + second.sent, second.dev, second.outcome)
    decreases |a|
  {
    if |a| == 0 {
      assert a + b == b;
      var second := Transmit(d, b);
      assert [] + second.sent == second.sent;
    } else {
      assert (a + b)[0] == a[0];
      assert (a + b)[1..] == a[1..] + b;
      var x := Ask(d, a[0]);
      if x.result.Success? {
        TransmitConcat(x.dev, a[1..], b);
      }
    }
  }

  /** The commands sent so far followed by the rest of the run. */
  function After(sent: seq<string>, rest: Sent): Sent
  {
    Sent(sent + rest.sent, rest.dev, rest.outcome)
  }

  /** The first command of a run, and the rest of the run after it. */
  lemma TransmitFirst(d: Device, cmds: seq<string>)
    requires |cmds| > 0
    ensures var x := Ask(d, cmds[0]);
            Transmit(d, cmds) == if x.result.Failure? then Sent([cmds[0]], x.dev, Fail(x.result.error))
                                 else After([cmds[0]], Transmit(x.dev, cmds[1..]))
  {
  }

  lemma AfterAfter(a: seq<string>, b: seq<string>, s: Sent)
    ensures After(a, After(b, s)) == After(a + b, s)
  {
    assert a + (b + s.sent) == (a + b) + s.sent;
  }

  /** The connection the record objects talk through: the device it reaches
      and every command sent on it so far. */
  class Link {
    var device: Device
    var log: seq<string>

    constructor (device0: Device)
      ensures device == device0 && log == []
    {
      device := device0;
      log := [];
    }

    /** `raw(cmd)`: send one command, read the reply and classify it. */
    method Raw(cmd: string) returns (r: Result<string, Error>)
      modifies this
      ensures log == old(log) + [cmd]
      ensures device == Ask(old(device), cmd).dev
      ensures r == Ask(old(device), cmd).result
    {
      var reply := Respond(device, cmd);
      device := reply.next;
      log := log + [cmd];
      r := Classify(reply.text);
    }

    /** A run of `raw` calls, each stopping the run with its error. */
    method Send(cmds: seq<string>) returns (r: Outcome<Error>)
      modifies this
      ensures var s := Transmit(old(device), cmds);
              device == s.dev && log == old(log) + s.sent && r == s.outcome
    {
      var rest := cmds;
      ghost var sent: seq<string> := [];
      while |rest| > 0
        invariant log == old(log) + sent
        invariant Transmit(old(device), cmds) == After(sent, Transmit(device, rest))
      {
        TransmitFirst(device, rest);
        var res := Raw(rest[0]);
        if res.Failure? {
          return Fail(res.error);
        }
        AfterAfter(sent, [rest[0]], Transmit(device, rest[1..]));
        sent, rest := sent + [rest[0]], rest[1..];
      }
      assert sent + [] == sent;
      r := Pass;
    }
  }
}
