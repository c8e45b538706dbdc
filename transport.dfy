/** The RCON connection, reduced to what the client relies on: every command
    is one exchange that yields either the server's reply text or a transport
    error. The replies are fixed in advance (`script`), so a proof covers every
    way the server may answer; `log` records, in order, everything sent. */
module Transport {
  import opened Wrappers

  /** The outcome of one exchange. */
  datatype Reply = Answer(text: string) | Failed(cause: string)

  /** Client calls whose command text is not part of this model. The log
      records that they were made and with which arguments. */
  datatype Call =
    | CreateZombie(pos: string, id: string, isBaby: bool, canBreakDoors: bool,
                   canPickUpLoot: bool, persistenceRequired: bool)
    | CreateSheep(pos: string, id: string, color: string, sheared: bool)
    | SummonVillager(x: int, y: int, z: int, id: string, dataTag: string)
    | DeleteVillager(id: string)
    | SetDayLock(enabled: bool)
    | UnbanPlayer(player: string)

  /** One exchange: a command text sent verbatim, or a call of the above kind. */
  datatype Entry = Command(text: string) | Opaque(call: Call)

  /** Regrouping a log; stated once, since asserting it inside a proof about
      a sequence of exchanges makes the solver search far longer. */
  lemma Associative(a: seq<Entry>, b: seq<Entry>, c: seq<Entry>)
    ensures a + (b + c) == a + b + c
  {
  }

  /** A list of steps, each sending one entry or nothing. */
  datatype Steps = Done | Step(entry: Option<Entry>, next: Steps)

  /** The entries of the present steps, in order. */
  function Present(steps: Steps): seq<Entry> {
    match steps
    case Done => []
    case Step(None, next) => Present(next)
    case Step(Some(e), next) => [e] + Present(next)
  }

  class Conn {
    var log: seq<Entry>
    const script: seq<Reply>

    constructor (script: seq<Reply>)
      ensures log == [] && this.script == script
    {
      log := [];
      this.script := script;
    }

    /** The reply to the exchange with index `i`; past the script the server
        answers with empty text. */
    function ReplyAt(i: nat): Reply {
      if i < |script| then script[i] else Answer("")
    }

    /** The reply the next exchange gets. */
    function Next(): Reply
      reads this
    {
      ReplyAt(|log|)
    }

    /** The entries that go out when `entries` are sent one after another,
        starting with exchange `n`, stopping right after the first failure. */
    function Attempted(n: nat, entries: seq<Entry>): seq<Entry>
      decreases |entries|
    {
      if entries == [] then []
      else if ReplyAt(n).Failed? then [entries[0]]
      else [entries[0]] + Attempted(n + 1, entries[1..])
    }

    /** The cause of the failure that stops such a sequence, if one does. */
    function FirstFailure(n: nat, entries: seq<Entry>): Option<string>
      decreases |entries|
    {
      if entries == [] then None
      else if ReplyAt(n).Failed? then Some(ReplyAt(n).cause)
      else FirstFailure(n + 1, entries[1..])
    }

    /** What is sent is a prefix of the entries, in their order. */
    lemma {:induction false} AttemptedIsPrefix(n: nat, entries: seq<Entry>)
      ensures |Attempted(n, entries)| <= |entries|
      ensures Attempted(n, entries) == entries[..|Attempted(n, entries)|]
      decreases |entries|
    {
      if entries != [] && !ReplyAt(n).Failed? {
        var rest := Attempted(n + 1, entries[1..]);
        AttemptedIsPrefix(n + 1, entries[1..]);
        assert [entries[0]] + entries[1..][..|rest|] == entries[..|rest| + 1];
      }
    }

    /** When nothing fails, every entry is sent and every exchange answered. */
    lemma {:induction false} AttemptedAll(n: nat, entries: seq<Entry>)
      requires FirstFailure(n, entries).None?
      ensures Attempted(n, entries) == entries
      ensures forall k :: n <= k < n + |entries| ==> ReplyAt(k).Answer?
      decreases |entries|
    {
      if entries != [] {
        AttemptedAll(n + 1, entries[1..]);
        assert [entries[0]] + entries[1..] == entries;
      }
    }

    /** When something fails, the last entry sent is the failing one and every
        earlier one was answered, so nothing after a failure is sent. */
    lemma {:induction false} AttemptedStops(n: nat, entries: seq<Entry>)
      requires FirstFailure(n, entries).Some?
      ensures Attempted(n, entries) != []
      ensures ReplyAt(n + |Attempted(n, entries)| - 1) == Failed(FirstFailure(n, entries).value)
      ensures forall k :: n <= k < n + |Attempted(n, entries)| - 1 ==> ReplyAt(k).Answer?
      decreases |entries|
    {
      if !ReplyAt(n).Failed? {
        AttemptedStops(n + 1, entries[1..]);
      }
    }

    /** Two entries in a row: the second goes out only if the first is answered. */
    lemma AttemptedPair(n: nat, a: Entry, b: Entry)
      ensures Attempted(n, [a, b]) == if ReplyAt(n).Failed? then [a] else [a, b]
      ensures FirstFailure(n, [a, b]) ==
        if ReplyAt(n).Failed? then Some(ReplyAt(n).cause)
        else if ReplyAt(n + 1).Failed? then Some(ReplyAt(n + 1).cause)
        else None
    {
      assert [a, b][1..] == [b] && [b][1..] == [];
      assert Attempted(n + 1, [b]) == [b];
      assert FirstFailure(n + 2, []) == None;
    }

    /** One entry ahead of the rest: it goes out, and the rest follow only
        if it is answered. */
    lemma AttemptedCons(n: nat, e: Entry, rest: seq<Entry>)
      ensures Attempted(n, [e] + rest) ==
        if ReplyAt(n).Failed? then [e] else [e] + Attempted(n + 1, rest)
      ensures FirstFailure(n, [e] + rest) ==
        if ReplyAt(n).Failed? then Some(ReplyAt(n).cause) else FirstFailure(n + 1, rest)
    {
      assert ([e] + rest)[0] == e && ([e] + rest)[1..] == rest;
    }

    /** The steps taken in order from exchange `n` on: what goes out,
        stopping right after the first failure. */
    function Run(n: nat, steps: Steps): seq<Entry>
      decreases steps
    {
      match steps
      case Done => []
      case Step(None, next) => Run(n, next)
      case Step(Some(e), next) => if ReplyAt(n).Failed? then [e] else [e] + Run(n + 1, next)
    }

    /** The cause of the failure that stops such a run, if one does. */
    function RunFailure(n: nat, steps: Steps): Option<string>
      decreases steps
    {
      match steps
      case Done => None
      case Step(None, next) => RunFailure(n, next)
      case Step(Some(e), next) =>
        if ReplyAt(n).Failed? then Some(ReplyAt(n).cause) else RunFailure(n + 1, next)
    }

    /** A run is the present steps sent one after another: skipping a step
        is the same as leaving it out of the sequence. */
    lemma {:induction false} RunIsAttempted(n: nat, steps: Steps)
      ensures Run(n, steps) == Attempted(n, Present(steps))
      ensures RunFailure(n, steps) == FirstFailure(n, Present(steps))
      decreases steps
    {
      match steps
      case Done =>
      case Step(None, next) =>
        RunIsAttempted(n, next);
      case Step(Some(e), next) =>
        RunIsAttempted(n + 1, next);
        AttemptedCons(n, e, Present(next));
    }

    /** Where a run stands when `rest` is still to go: the whole run, `goal`
        with failure `fail`, is `sent` plus the rest of it. */
    predicate RunAt(goal: seq<Entry>, fail: Option<string>, sent: seq<Entry>, rest: Steps) {
      goal == sent + Run(|sent|, rest) && fail == RunFailure(|sent|, rest)
    }

    lemma RunStart(log0: seq<Entry>, all: Steps)
      ensures RunAt(log0 + Run(|log0|, all), RunFailure(|log0|, all), log0, all)
    {
    }

    /** The next step absent: the run goes on with the one after it. */
    lemma RunSkipped(goal: seq<Entry>, fail: Option<string>, sent: seq<Entry>, rest: Steps)
      requires rest.Step? && rest.entry.None? && RunAt(goal, fail, sent, rest)
      ensures RunAt(goal, fail, sent, rest.next)
    {
    }

    /** The next step sent as `after`: a failure ends the run there, an
        answer lets it go on with the step after it. */
    lemma RunSent(goal: seq<Entry>, fail: Option<string>, sent: seq<Entry>, rest: Steps,
                  after: seq<Entry>)
      requires rest.Step? && rest.entry.Some? && RunAt(goal, fail, sent, rest)
      requires after == sent + [rest.entry.value]
      ensures ReplyAt(|sent|).Failed? ==> goal == after && fail == Some(ReplyAt(|sent|).cause)
      ensures ReplyAt(|sent|).Answer? ==> RunAt(goal, fail, after, rest.next)
    {
      if ReplyAt(|sent|).Answer? {
        Associative(sent, [rest.entry.value], Run(|sent| + 1, rest.next));
      }
    }

    /** Every step taken: the run is complete and nothing failed. */
    lemma RunFinished(goal: seq<Entry>, fail: Option<string>, sent: seq<Entry>)
      requires RunAt(goal, fail, sent, Done)
      ensures goal == sent && fail.None?
    {
      assert sent + [] == sent;
    }

    /** `SendCommand`: one exchange carrying `cmd`. */
    method Send(cmd: string) returns (r: Reply)
      modifies this
      ensures log == old(log) + [Command(cmd)]
      ensures r == old(Next())
    {
      r := ReplyAt(|log|);
      log := log + [Command(cmd)];
    }

    /** One exchange for a call whose command text is not modelled. */
    method Invoke(c: Call) returns (r: Reply)
      modifies this
      ensures log == old(log) + [Opaque(c)]
      ensures r == old(Next())
    {
      r := ReplyAt(|log|);
      log := log + [Opaque(c)];
    }
  }
}
