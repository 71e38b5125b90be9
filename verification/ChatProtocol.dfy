/**
  The terminal front end and its worker thread: two queues, one shared cancel flag, and
  the user interface state the events update. Every interleaving is a list of steps;
  turn numbers are bookkeeping of the model and no step depends on them.
  */
module ChatProtocol {
  import opened Wrappers

  // ---------------------------------------------------------------------------
  // State
  // ---------------------------------------------------------------------------

  datatype Cmd = Send(turn: nat, text: string) | Reset | SetSys | Shutdown

  datatype Event =
    | Chunk(turn: nat, text: string)
    | StateChanged(position: nat)
    | Done(turn: nat, cancelled: bool, generated: nat)
    | Failed(turn: nat)

  datatype Author = FromUser(turn: nat) | FromBot(turn: nat) | FromSystem
  datatype DisplayMsg = DisplayMsg(author: Author, content: string)

  /** The fields of the user interface that the protocol touches. */
  datatype Ui = Ui(generating: bool, streaming: string, log: seq<DisplayMsg>, tokenPosition: nat)

  /** Where the worker is in its loop. */
  datatype Worker =
    | Waiting
    | Starting(turn: nat)
    | Running(turn: nat)
    | Ending(turn: nat, cancelled: bool)
    | Reporting(turn: nat, ok: bool, cancelled: bool, generated: nat)
    | Answering(turn: nat, ok: bool, cancelled: bool, generated: nat)
    | Stopped

  /**
    `sent` counts turns sent, `emitted[t]` is all the text turn `t` put on the queue,
    `pressedFor` the turn on screen when the cancel flag was last set.
    */
  datatype State = State(ui: Ui, open: bool, cmds: seq<Cmd>, events: seq<Event>, worker: Worker,
                         cancel: bool, enginePosition: nat,
                         sent: nat, emitted: seq<string>, pressedFor: nat)

  function Init(position: nat): State {
    State(Ui(false, "", [], position), true, [], [], Waiting, false, position, 0, [], 0)
  }

  // ---------------------------------------------------------------------------
  // User interface
  // ---------------------------------------------------------------------------

  /** The turn's reply goes to the log; a turn cancelled before any token takes its question back instead. */
  function FinishBotTurn(ui: Ui, turn: nat, cancelled: bool, generated: nat): Ui {
    var log :=
      if cancelled && generated == 0 then
        if ui.log != [] && ui.log[|ui.log| - 1].author.FromUser? then ui.log[..|ui.log| - 1] else ui.log
      else ui.log + [DisplayMsg(FromBot(turn), ui.streaming)];
    ui.(log := log, streaming := "", generating := false)
  }

  function FailBotTurn(ui: Ui, turn: nat): Ui {
    ui.(log := if ui.streaming == "" then ui.log else ui.log + [DisplayMsg(FromBot(turn), ui.streaming)],
        streaming := "", generating := false)
  }

  function ApplyTokenEvent(ui: Ui, e: Event): Ui {
    match e
    case Chunk(_, text) => ui.(streaming := ui.streaming + text)
    case Done(turn, cancelled, generated) => FinishBotTurn(ui, turn, cancelled, generated)
    case Failed(turn) => FailBotTurn(ui, turn)
    case StateChanged(position) => ui.(tokenPosition := position)
  }

  function StartTurn(ui: Ui, turn: nat, text: string): Ui {
    ui.(log := ui.log + [DisplayMsg(FromUser(turn), text)], streaming := "", generating := true)
  }

  /** The user interface object, its fields updated by the handlers. */
  class UiState {
    var generating: bool
    var streaming: string
    var log: seq<DisplayMsg>
    var tokenPosition: nat

    function Value(): Ui
      reads this
    {
      Ui(generating, streaming, log, tokenPosition)
    }

    constructor (position: nat)
      ensures Value() == Init(position).ui
    {
      generating, streaming, log, tokenPosition := false, "", [], position;
    }

    method HandleEvent(e: Event)
      modifies this
      ensures Value() == ApplyTokenEvent(old(Value()), e)
    {
      match e {
        case Chunk(_, text) => streaming := streaming + text;
        case StateChanged(position) => tokenPosition := position;
        case Done(turn, cancelled, generated) =>
          var resp := streaming;
          streaming := "";
          if cancelled && generated == 0 {
            if log != [] && log[|log| - 1].author.FromUser? { log := log[..|log| - 1]; }
          } else {
            log := log + [DisplayMsg(FromBot(turn), resp)];
          }
          generating := false;
        case Failed(turn) =>
          var partial := streaming;
          streaming := "";
          if partial != "" { log := log + [DisplayMsg(FromBot(turn), partial)]; }
          generating := false;
      }
    }
  }

  // ---------------------------------------------------------------------------
  // Steps
  // ---------------------------------------------------------------------------

  datatype Step =
    // user interface thread
    | PressEnter(text: string)
    | SlashReset
    | SlashSys
    | ClearLog
    | PressEsc
    | Drain
    | Quit
    // worker thread
    | Receive
    | Refuse
    | Begin
    | Poll
    | Advance(position: nat)
    | Emit(text: string)
    | End(ok: bool, generated: nat, position: nat)
    | ReportPosition
    | Report

  /** While a turn is on screen only Esc, scrolling and quitting do anything. */
  predicate Enabled(s: State, step: Step) {
    match step
    case PressEnter(_) => s.open && !s.ui.generating
    case SlashReset => s.open && !s.ui.generating
    case SlashSys => s.open && !s.ui.generating
    case ClearLog => s.open && !s.ui.generating
    case PressEsc => s.open && s.ui.generating
    case Drain => s.open && s.events != []
    case Quit => s.open
    case Receive => s.worker.Waiting? && s.cmds != []
    case Refuse => s.worker.Starting?
    case Begin => s.worker.Starting?
    case Poll => s.worker.Running?
    case Advance(_) => s.worker.Running?
    case Emit(_) => s.worker.Running? || s.worker.Ending?
    case End(_, _, _) => s.worker.Running? || s.worker.Ending?
    case ReportPosition => s.worker.Reporting?
    case Report => s.worker.Answering?
  }

  function Do(s: State, step: Step): State
    requires Enabled(s, step)
  {
    match step
    case PressEnter(text) =>
      s.(ui := StartTurn(s.ui, s.sent, text), cmds := s.cmds + [Send(s.sent, text)],
         sent := s.sent + 1, emitted := s.emitted + [""])
    case SlashReset =>
      s.(cmds := s.cmds + [Reset], ui := s.ui.(log := s.ui.log + [DisplayMsg(FromSystem, "")]))
    case SlashSys =>
      s.(cmds := s.cmds + [SetSys], ui := s.ui.(log := s.ui.log + [DisplayMsg(FromSystem, "")]))
    case ClearLog => s.(ui := s.ui.(log := []))
    case PressEsc => s.(cancel := true, pressedFor := if s.sent > 0 then s.sent - 1 else 0)
    case Drain => s.(ui := ApplyTokenEvent(s.ui, s.events[0]), events := s.events[1..])
    case Quit => s.(open := false, cmds := s.cmds + [Shutdown])
    case Receive =>
      var rest := s.(cmds := s.cmds[1..]);
      (match s.cmds[0]
       case Send(turn, _) => rest.(worker := Starting(turn))
       case Reset => rest.(enginePosition := 0, events := s.events + [StateChanged(0)])
       case SetSys => rest
       case Shutdown => rest.(worker := Stopped))
    case Refuse => s.(worker := Reporting(s.worker.turn, false, false, 0))
    case Begin => s.(worker := Running(s.worker.turn), cancel := false)
    case Poll => if s.cancel then s.(worker := Ending(s.worker.turn, true)) else s
    case Advance(position) => s.(enginePosition := position)
    case Emit(text) =>
      var t := s.worker.turn;
      s.(events := s.events + [Chunk(t, text)],
         emitted := if t < |s.emitted| then s.emitted[t := s.emitted[t] + text] else s.emitted)
    case End(ok, generated, position) =>
      s.(worker := Reporting(s.worker.turn, ok, s.worker.Ending? && s.worker.cancelled, generated), enginePosition := position)
    case ReportPosition =>
      var w := s.worker;
      s.(worker := Answering(w.turn, w.ok, w.cancelled, w.generated), events := s.events + [StateChanged(s.enginePosition)])
    case Report =>
      var w := s.worker;
      s.(worker := Waiting, events := s.events + [if w.ok then Done(w.turn, w.cancelled, w.generated) else Failed(w.turn)])
  }

  /** The state a list of steps leads to; none when one of them was not possible. */
  function Then(s: State, steps: seq<Step>): Option<State> {
    if steps == [] then Some(s) else
    var t :- Then(s, steps[..|steps| - 1]);
    if Enabled(t, steps[|steps| - 1]) then Some(Do(t, steps[|steps| - 1])) else None
  }

  /** A run from the start. */
  function Exec(position: nat, steps: seq<Step>): Option<State> {
    Then(Init(position), steps)
  }

  // ---------------------------------------------------------------------------
  // The invariant
  // ---------------------------------------------------------------------------

  function Sends(cmds: seq<Cmd>): nat {
    if cmds == [] then 0 else Sends(cmds[..|cmds| - 1]) + (if cmds[|cmds| - 1].Send? then 1 else 0)
  }

  predicate IsResult(e: Event) { e.Done? || e.Failed? }

  function Results(events: seq<Event>): nat {
    if events == [] then 0 else Results(events[..|events| - 1]) + (if IsResult(events[|events| - 1]) then 1 else 0)
  }

  function Busy(w: Worker): nat {
    if w.Waiting? || w.Stopped? then 0 else 1
  }

  /** Text still queued. */
  function Queued(events: seq<Event>): string {
    if events == [] then "" else
    var e := events[|events| - 1];
    Queued(events[..|events| - 1]) + (if e.Chunk? then e.text else "")
  }

  /** The position the interface will show once it has drained the queue. */
  function ShownAfter(position: nat, events: seq<Event>): nat {
    if events == [] then position else
    var e := events[|events| - 1];
    if e.StateChanged? then e.position else ShownAfter(position, events[..|events| - 1])
  }

  /** Every bot message is the whole text of its turn. */
  predicate LogIsWhole(log: seq<DisplayMsg>, emitted: seq<string>) {
    forall i :: 0 <= i < |log| && log[i].author.FromBot? ==>
      log[i].author.turn < |emitted| && log[i].content == emitted[log[i].author.turn]
  }

  /** Only turns before `end` have replies in the log, in order and one each. */
  predicate LogIsSettled(log: seq<DisplayMsg>, end: int) {
    && (forall i :: 0 <= i < |log| && log[i].author.FromBot? ==> log[i].author.turn < end)
    && (forall i, j :: 0 <= i < j < |log| && log[i].author.FromBot? && log[j].author.FromBot? ==>
          log[i].author.turn < log[j].author.turn)
  }

  /** The number of turns that are over for the interface. */
  function Settled(s: State): int {
    if s.ui.generating then s.sent - 1 else s.sent
  }

  /** The queue holds at most the turn on screen, and only a shutdown behind it. */
  predicate CmdsInOrder(cmds: seq<Cmd>, turn: int, generating: bool) {
    && (forall i :: 0 <= i < |cmds| && cmds[i].Send? ==> cmds[i].turn == turn)
    && (forall i, j :: 0 <= i < j < |cmds| && cmds[i].Send? ==> cmds[j].Shutdown?)
    && (generating && Sends(cmds) == 0 ==> forall i :: 0 <= i < |cmds| ==> cmds[i].Shutdown?)
  }

  /** Text and results on the queue are the current turn's, and its result comes last. */
  predicate EventsInOrder(events: seq<Event>, turn: int, generating: bool) {
    && (forall i :: 0 <= i < |events| && events[i].Chunk? ==> generating && events[i].turn == turn)
    && (forall i :: 0 <= i < |events| && IsResult(events[i]) ==> i == |events| - 1 && events[i].turn == turn)
  }

  /** The turn under way is the last one sent, and its question is the last line of the log. */
  predicate CurrentTurn(s: State) {
    && |s.emitted| == s.sent
    && (s.ui.generating ==> s.sent > 0 && s.ui.log != [] && s.ui.log[|s.ui.log| - 1].author == FromUser(s.sent - 1))
    && (Busy(s.worker) == 1 ==> s.worker.turn == s.sent - 1)
  }

  /** The text shown so far and the text still queued make up what the turn has produced. */
  predicate TextConserved(s: State)
    requires CurrentTurn(s)
  {
    if s.ui.generating then s.ui.streaming + Queued(s.events) == s.emitted[s.sent - 1]
    else s.ui.streaming == ""
  }

  /** A cancellation seen by a turn was asked for while that turn was on screen. */
  predicate CancelIsFresh(s: State) {
    && (s.worker.Running? && s.cancel ==> s.pressedFor == s.worker.turn)
    && (s.worker.Ending? ==> s.worker.cancelled ==> s.pressedFor == s.worker.turn)
  }

  predicate PositionsAgree(s: State) {
    s.worker.Waiting? || s.worker.Starting? || s.worker.Answering? || s.worker.Stopped? ==>
      ShownAfter(s.ui.tokenPosition, s.events) == s.enginePosition
  }

  predicate Counted(s: State) {
    Sends(s.cmds) + Busy(s.worker) + Results(s.events) == (if s.ui.generating then 1 else 0)
  }

  predicate Inv(s: State) {
    && CurrentTurn(s)
    && CmdsInOrder(s.cmds, s.sent - 1, s.ui.generating)
    && EventsInOrder(s.events, s.sent - 1, s.ui.generating)
    && Counted(s) && TextConserved(s)
    && LogIsWhole(s.ui.log, s.emitted) && LogIsSettled(s.ui.log, Settled(s))
    && CancelIsFresh(s) && PositionsAgree(s)
  }

  // ---------------------------------------------------------------------------
  // Taking from the front of a queue
  // ---------------------------------------------------------------------------

  lemma {:induction false} SendsFront(cmds: seq<Cmd>)
    requires cmds != []
    ensures Sends(cmds) == (if cmds[0].Send? then 1 else 0) + Sends(cmds[1..])
  {
    if |cmds| > 1 {
      SendsFront(cmds[..|cmds| - 1]);
      assert cmds[..|cmds| - 1][1..] == cmds[1..][..|cmds| - 2];
    }
  }

  lemma {:induction false} NoSends(cmds: seq<Cmd>)
    ensures Sends(cmds) == 0 <==> forall i :: 0 <= i < |cmds| ==> !cmds[i].Send?
  {
    if cmds != [] {
      NoSends(cmds[..|cmds| - 1]);
      assert forall i :: 0 <= i < |cmds| - 1 ==> cmds[..|cmds| - 1][i] == cmds[i];
    }
  }

  lemma {:induction false} ResultsFront(events: seq<Event>)
    requires events != []
    ensures Results(events) == (if IsResult(events[0]) then 1 else 0) + Results(events[1..])
  {
    if |events| > 1 {
      ResultsFront(events[..|events| - 1]);
      assert events[..|events| - 1][1..] == events[1..][..|events| - 2];
    }
  }

  lemma {:induction false} NoResults(events: seq<Event>)
    ensures Results(events) == 0 <==> forall i :: 0 <= i < |events| ==> !IsResult(events[i])
  {
    if events != [] {
      NoResults(events[..|events| - 1]);
      assert forall i :: 0 <= i < |events| - 1 ==> events[..|events| - 1][i] == events[i];
    }
  }

  lemma {:induction false} QueuedFront(events: seq<Event>)
    requires events != []
    ensures Queued(events) == (if events[0].Chunk? then events[0].text else "") + Queued(events[1..])
  {
    if |events| > 1 {
      QueuedFront(events[..|events| - 1]);
      assert events[..|events| - 1][1..] == events[1..][..|events| - 2];
    }
  }

  lemma {:induction false} ShownFront(position: nat, events: seq<Event>)
    requires events != []
    ensures ShownAfter(position, events)
         == ShownAfter(if events[0].StateChanged? then events[0].position else position, events[1..])
  {
    if |events| > 1 {
      ShownFront(position, events[..|events| - 1]);
      assert events[..|events| - 1][1..] == events[1..][..|events| - 2];
    }
  }

  /** Adding one event at the back. */
  lemma {:induction false} Pushed(position: nat, events: seq<Event>, e: Event)
    ensures Results(events + [e]) == Results(events) + (if IsResult(e) then 1 else 0)
    ensures Queued(events + [e]) == Queued(events) + (if e.Chunk? then e.text else "")
    ensures ShownAfter(position, events + [e]) == (if e.StateChanged? then e.position else ShownAfter(position, events))
  {
    assert (events + [e])[..|events + [e]| - 1] == events;
  }

  // ---------------------------------------------------------------------------
  // Every step keeps the invariant
  // ---------------------------------------------------------------------------

  lemma InitInv(position: nat)
    ensures Inv(Init(position))
  {
  }

  /** Between turns no text and no result is queued. */
  lemma QuietEvents(events: seq<Event>, turn: int)
    requires EventsInOrder(events, turn, false) && Results(events) == 0
    ensures EventsInOrder(events, turn + 1, true) && Queued(events) == ""
  {
    NoResults(events);
    QuietQueue(events);
  }

  lemma SendQueued(cmds: seq<Cmd>, turn: nat, text: string)
    requires CmdsInOrder(cmds, turn - 1, false) && Sends(cmds) == 0
    ensures CmdsInOrder(cmds + [Send(turn, text)], turn, true) && Sends(cmds + [Send(turn, text)]) == 1
  {
    hide Sends;
    SendsSnoc(cmds, Send(turn, text));
    NoSends(cmds);
  }

  lemma SendsSnoc(cmds: seq<Cmd>, cmd: Cmd)
    ensures Sends(cmds + [cmd]) == Sends(cmds) + (if cmd.Send? then 1 else 0)
  {
    assert (cmds + [cmd])[..|cmds + [cmd]| - 1] == cmds;
  }

  /** A question does not disturb the replies, nor does a turn that has said nothing yet. */
  lemma QuestionLogged(log: seq<DisplayMsg>, emitted: seq<string>, turn: nat, text: string)
    requires LogIsWhole(log, emitted) && LogIsSettled(log, turn) && turn == |emitted|
    ensures LogIsWhole(log + [DisplayMsg(FromUser(turn), text)], emitted + [""])
    ensures LogIsSettled(log + [DisplayMsg(FromUser(turn), text)], turn)
  {
  }

  lemma EnterKeeps(s: State, text: string)
    requires Inv(s) && Enabled(s, PressEnter(text))
    ensures Inv(Do(s, PressEnter(text)))
  {
    hide Sends, Queued, Results, ShownAfter, LogIsWhole, LogIsSettled, CmdsInOrder, EventsInOrder;
    QuietEvents(s.events, s.sent - 1);
    SendQueued(s.cmds, s.sent, text);
    QuestionLogged(s.ui.log, s.emitted, s.sent, text);
  }

  /** A queue without chunks holds no text. */
  lemma {:induction false} QuietQueue(events: seq<Event>)
    requires forall i :: 0 <= i < |events| ==> !events[i].Chunk?
    ensures Queued(events) == ""
  {
    if events != [] { QuietQueue(events[..|events| - 1]); }
  }

  lemma CmdQueued(cmds: seq<Cmd>, turn: int, generating: bool, cmd: Cmd)
    requires CmdsInOrder(cmds, turn, generating) && !cmd.Send?
    requires cmd.Shutdown? || (!generating && Sends(cmds) == 0)
    ensures CmdsInOrder(cmds + [cmd], turn, generating) && Sends(cmds + [cmd]) == Sends(cmds)
  {
    assert (cmds + [cmd])[..|cmds + [cmd]| - 1] == cmds;
    NoSends(cmds);
  }

  lemma CommandKeeps(s: State, step: Step)
    requires Inv(s) && Enabled(s, step)
    requires step.SlashReset? || step.SlashSys? || step.ClearLog? || step.PressEsc? || step.Quit?
    ensures Inv(Do(s, step))
  {
    hide Sends, Queued, Results, ShownAfter, CmdsInOrder, EventsInOrder;
    CmdQueued(s.cmds, s.sent - 1, s.ui.generating, Shutdown);
    if !s.ui.generating {
      CmdQueued(s.cmds, s.sent - 1, false, Reset);
      CmdQueued(s.cmds, s.sent - 1, false, SetSys);
      SystemLine(s.ui.log, s.emitted, s.sent);
    }
    if step.ClearLog? {
    } else {
      hide LogIsWhole, LogIsSettled;
    }
  }

  lemma SystemLine(log: seq<DisplayMsg>, emitted: seq<string>, end: int)
    requires LogIsWhole(log, emitted) && LogIsSettled(log, end)
    ensures LogIsWhole(log + [DisplayMsg(FromSystem, "")], emitted)
    ensures LogIsSettled(log + [DisplayMsg(FromSystem, "")], end)
  {
  }

  /** A result moves the whole of its turn's text into the log; nothing else touches the replies there. */
  lemma DrainKeepsLog(s: State)
    requires Inv(s) && Enabled(s, Drain)
    ensures var t := Do(s, Drain);
      LogIsWhole(t.ui.log, t.emitted) && LogIsSettled(t.ui.log, Settled(t))
  {
    hide Sends, Queued, Results, ShownAfter, CmdsInOrder, EventsInOrder, CancelIsFresh, PositionsAgree, LogIsWhole, LogIsSettled;
    if IsResult(s.events[0]) {
      WholeTextShown(s);
      ReplyLogged(s.ui.log, s.emitted, s.sent - 1);
    }
  }

  /** When a result reaches the interface all of the turn's text has. */
  lemma WholeTextShown(s: State)
    requires Inv(s) && s.events != [] && IsResult(s.events[0])
    ensures s.ui.generating && s.events[0].turn == s.sent - 1 && s.events[1..] == []
    ensures s.ui.streaming == s.emitted[s.sent - 1]
  {
    hide Sends, Queued, Results, ShownAfter, CmdsInOrder, CancelIsFresh, PositionsAgree, LogIsWhole, LogIsSettled;
    ResultsFront(s.events);
    QueuedFront(s.events);
    assert Queued([]) == "" by { QuietQueue([]); }
  }

  /** What the last turn can do to the log: its reply added, its question taken back, or nothing. */
  lemma ReplyLogged(log: seq<DisplayMsg>, emitted: seq<string>, turn: nat)
    requires LogIsWhole(log, emitted) && LogIsSettled(log, turn) && turn < |emitted|
    ensures var logged := log + [DisplayMsg(FromBot(turn), emitted[turn])];
      LogIsWhole(logged, emitted) && LogIsSettled(logged, turn + 1)
    ensures log != [] ==> LogIsWhole(log[..|log| - 1], emitted) && LogIsSettled(log[..|log| - 1], turn + 1)
    ensures LogIsSettled(log, turn + 1)
  {
  }

  lemma DrainKeeps(s: State)
    requires Inv(s) && Enabled(s, Drain)
    ensures Inv(Do(s, Drain))
  {
    hide Sends, Queued, Results, ShownAfter, LogIsWhole, LogIsSettled;
    var t := Do(s, Drain);
    ResultsFront(s.events);
    QueuedFront(s.events);
    ShownFront(s.ui.tokenPosition, s.events);
    assert forall i :: 0 <= i < |t.events| ==> t.events[i] == s.events[i + 1];
    DrainKeepsLog(s);
  }

  /** Taking the front command keeps the order of the rest, and leaves only a shutdown behind a turn. */
  lemma CmdsTaken(cmds: seq<Cmd>, turn: int, generating: bool)
    requires cmds != [] && CmdsInOrder(cmds, turn, generating)
    ensures CmdsInOrder(cmds[1..], turn, generating)
    ensures Sends(cmds) == (if cmds[0].Send? then 1 else 0) + Sends(cmds[1..])
    ensures generating && Sends(cmds) == 0 ==> cmds[0].Shutdown?
    ensures cmds[0].Send? ==> cmds[0].turn == turn
  {
    hide Sends;
    SendsFront(cmds);
    NoSends(cmds[1..]);
    NoSends(cmds);
  }

  /** A position report changes neither the text nor the results on a queue without a result. */
  lemma PositionQueued(events: seq<Event>, turn: int, generating: bool, position: nat)
    requires EventsInOrder(events, turn, generating) && Results(events) == 0
    ensures EventsInOrder(events + [StateChanged(position)], turn, generating)
    ensures Results(events + [StateChanged(position)]) == 0
    ensures Queued(events + [StateChanged(position)]) == Queued(events)
  {
    hide Results, Queued, ShownAfter;
    NoResults(events);
    Pushed(0, events, StateChanged(position));
    var longer := events + [StateChanged(position)];
    assert forall i :: 0 <= i < |longer| ==> longer[i] == (if i < |events| then events[i] else StateChanged(position));
  }

  lemma ReceiveKeeps(s: State)
    requires Inv(s) && Enabled(s, Receive)
    ensures Inv(Do(s, Receive))
  {
    hide Sends, Queued, Results, ShownAfter, LogIsWhole, LogIsSettled, CmdsInOrder, EventsInOrder;
    CmdsTaken(s.cmds, s.sent - 1, s.ui.generating);
    Pushed(s.ui.tokenPosition, s.events, StateChanged(0));
    if Results(s.events) == 0 { PositionQueued(s.events, s.sent - 1, s.ui.generating, 0); }
  }

  lemma TurnKeeps(s: State, step: Step)
    requires Inv(s) && Enabled(s, step)
    requires step.Refuse? || step.Begin? || step.Poll? || step.Advance? || step.End?
    ensures Inv(Do(s, step))
  {
    hide Sends, Queued, Results, ShownAfter, LogIsWhole, LogIsSettled, CmdsInOrder, EventsInOrder;
  }

  lemma ChunkQueued(events: seq<Event>, turn: nat, text: string)
    requires EventsInOrder(events, turn, true) && Results(events) == 0
    ensures EventsInOrder(events + [Chunk(turn, text)], turn, true)
    ensures Results(events + [Chunk(turn, text)]) == 0 && Queued(events + [Chunk(turn, text)]) == Queued(events) + text
  {
    hide Results, Queued, ShownAfter;
    NoResults(events);
    Pushed(0, events, Chunk(turn, text));
    var longer := events + [Chunk(turn, text)];
    assert forall i :: 0 <= i < |longer| ==> longer[i] == (if i < |events| then events[i] else Chunk(turn, text));
  }

  /** Text added to the turn under way leaves the finished replies whole. */
  lemma WholeWhileRunning(log: seq<DisplayMsg>, emitted: seq<string>, turn: nat, text: string)
    requires turn < |emitted| && LogIsWhole(log, emitted) && LogIsSettled(log, turn)
    ensures LogIsWhole(log, emitted[turn := text])
  {
  }

  lemma EmitKeeps(s: State, text: string)
    requires Inv(s) && Enabled(s, Emit(text))
    ensures Inv(Do(s, Emit(text)))
  {
    hide Sends, Queued, Results, ShownAfter, LogIsWhole, LogIsSettled, CmdsInOrder, EventsInOrder;
    var turn := s.worker.turn;
    assert s.ui.generating && Results(s.events) == 0;
    ChunkQueued(s.events, turn, text);
    WholeWhileRunning(s.ui.log, s.emitted, turn, s.emitted[turn] + text);
    assert s.ui.streaming + (Queued(s.events) + text) == s.emitted[turn] + text;
  }

  /** A result goes behind everything else. */
  lemma ResultQueued(events: seq<Event>, turn: int, e: Event)
    requires EventsInOrder(events, turn, true) && Results(events) == 0 && IsResult(e) && e.turn == turn
    ensures EventsInOrder(events + [e], turn, true)
    ensures Results(events + [e]) == 1 && Queued(events + [e]) == Queued(events)
  {
    hide Results, Queued, ShownAfter;
    NoResults(events);
    Pushed(0, events, e);
    var longer := events + [e];
    assert forall i :: 0 <= i < |longer| ==> longer[i] == (if i < |events| then events[i] else e);
  }

  lemma PositionKeeps(s: State)
    requires Inv(s) && Enabled(s, ReportPosition)
    ensures Inv(Do(s, ReportPosition))
  {
    hide Sends, Queued, Results, ShownAfter, LogIsWhole, LogIsSettled, CmdsInOrder, EventsInOrder;
    Pushed(s.ui.tokenPosition, s.events, StateChanged(s.enginePosition));
    assert s.ui.generating && Results(s.events) == 0;
    PositionQueued(s.events, s.sent - 1, true, s.enginePosition);
  }

  lemma ReportKeeps(s: State)
    requires Inv(s) && Enabled(s, Report)
    ensures Inv(Do(s, Report))
  {
    hide Sends, Queued, Results, ShownAfter, LogIsWhole, LogIsSettled, CmdsInOrder, EventsInOrder;
    var w := s.worker;
    var result := if w.ok then Done(w.turn, w.cancelled, w.generated) else Failed(w.turn);
    Pushed(s.ui.tokenPosition, s.events, result);
    assert s.ui.generating && Results(s.events) == 0;
    ResultQueued(s.events, s.sent - 1, result);
  }

  lemma StepKeeps(s: State, step: Step)
    requires Inv(s) && Enabled(s, step)
    ensures Inv(Do(s, step))
  {
    hide Inv, Do;
    match step
    case PressEnter(text) => EnterKeeps(s, text);
    case Drain => DrainKeeps(s);
    case Receive => ReceiveKeeps(s);
    case Emit(text) => EmitKeeps(s, text);
    case ReportPosition => PositionKeeps(s);
    case Report => ReportKeeps(s);
    case SlashReset => CommandKeeps(s, step);
    case SlashSys => CommandKeeps(s, step);
    case ClearLog => CommandKeeps(s, step);
    case PressEsc => CommandKeeps(s, step);
    case Quit => CommandKeeps(s, step);
    case _ => TurnKeeps(s, step);
  }

  /** Every interleaving of the two threads keeps the invariant. */
  lemma {:induction false} ExecInv(position: nat, steps: seq<Step>)
    requires Exec(position, steps).Some?
    ensures Inv(Exec(position, steps).value)
  {
    if steps == [] {
      InitInv(position);
    } else {
      ExecInv(position, steps[..|steps| - 1]);
      StepKeeps(Exec(position, steps[..|steps| - 1]).value, steps[|steps| - 1]);
    }
  }

  // ---------------------------------------------------------------------------
  // What holds in every reachable state
  // ---------------------------------------------------------------------------

  /** A turn is in exactly one place from Enter until its result is shown, and in none otherwise. */
  lemma TurnIsInOnePlace(position: nat, steps: seq<Step>)
    requires Exec(position, steps).Some?
    ensures var s := Exec(position, steps).value;
      Sends(s.cmds) + Busy(s.worker) + Results(s.events) == (if s.ui.generating then 1 else 0)
  {
    ExecInv(position, steps);
  }

  /** Each reply in the log is all the text of one turn and no two replies share a turn. */
  lemma LogHoldsWholeTurns(position: nat, steps: seq<Step>)
    requires Exec(position, steps).Some?
    ensures var s := Exec(position, steps).value; LogIsWhole(s.ui.log, s.emitted) && LogIsSettled(s.ui.log, Settled(s))
  {
    ExecInv(position, steps);
  }

  /** With nothing in flight the interface shows the engine's position. */
  lemma QuietPositionsAgree(position: nat, steps: seq<Step>)
    requires Exec(position, steps).Some?
    requires var s := Exec(position, steps).value; s.cmds == [] && s.events == [] && s.worker.Waiting?
    ensures var s := Exec(position, steps).value; s.ui.tokenPosition == s.enginePosition && !s.ui.generating
  {
    ExecInv(position, steps);
  }

  /** A poll that ends a turn answers a key pressed for that turn. */
  lemma StaleCancelIsHarmless(position: nat, steps: seq<Step>)
    requires Exec(position, steps).Some?
    requires Exec(position, steps).value.worker.Running?
    ensures var s := Exec(position, steps).value;
      Do(s, Poll).worker == Ending(s.worker.turn, true) ==> s.pressedFor == s.worker.turn
  {
    ExecInv(position, steps);
  }

  /**
    A drained result closes its turn. A reply becomes the last line of the log, holding all
    the turn's text, unless the turn was cancelled before any token; what a failed turn had
    shown is kept the same way, and one that had shown nothing leaves the log alone.
    */
  lemma ReplyIsLogged(position: nat, steps: seq<Step>)
    requires Exec(position, steps).Some?
    requires var s := Exec(position, steps).value; s.open && s.events != [] && IsResult(s.events[0])
    ensures var s, now := Exec(position, steps).value, Do(Exec(position, steps).value, Drain).ui;
      && s.events[0].turn < |s.emitted| && !now.generating && now.streaming == ""
      && var text := s.emitted[s.events[0].turn];
         var reply := [DisplayMsg(FromBot(s.events[0].turn), text)];
         match s.events[0]
         case Done(_, cancelled, generated) => !(cancelled && generated == 0) ==> now.log == s.ui.log + reply
         case Failed(_) => now.log == s.ui.log + (if text == "" then [] else reply)
  {
    hide Exec, Sends, Queued, Results, ShownAfter, LogIsWhole, LogIsSettled, CmdsInOrder;
    ExecInv(position, steps);
    var s := Exec(position, steps).value;
    WholeTextShown(s);
    assert s.ui.log + [] == s.ui.log;
  }

  /** A turn cancelled before its first token takes back its own question and nothing else. */
  lemma CancelledTurnTakesItsQuestionBack(position: nat, steps: seq<Step>)
    requires Exec(position, steps).Some?
    requires var s := Exec(position, steps).value;
      s.open && s.events != [] && s.events[0].Done? && s.events[0].cancelled && s.events[0].generated == 0
    ensures var s := Exec(position, steps).value;
      && s.ui.log != []
      && s.ui.log == Do(s, Drain).ui.log + [s.ui.log[|s.ui.log| - 1]]
      && s.ui.log[|s.ui.log| - 1].author == FromUser(s.events[0].turn)
  {
    hide Exec, Sends, Queued, Results, ShownAfter, LogIsWhole, LogIsSettled, CmdsInOrder;
    ExecInv(position, steps);
    var s := Exec(position, steps).value;
    WholeTextShown(s);
  }

  /**
    The flag is cleared when the worker picks the turn up, so an Esc pressed between Enter
    and that moment is lost: the turn starts, polls and is not cancelled. One pressed after
    it is seen by the next poll.
    */
  lemma EarlyEscIsLost(position: nat, text: string)
    ensures var lost := Exec(position, [PressEnter(text), PressEsc, Receive, Begin, Poll]);
      lost.Some? && lost.value.worker == Running(0)
    ensures var seen := Exec(position, [PressEnter(text), Receive, Begin, PressEsc, Poll]);
      seen.Some? && seen.value.worker == Ending(0, true)
  {
    hide Exec;
    PressedEarly(position, text);
    PressedLate(position, text);
    var early := [PressEnter(text), PressEsc, Receive, Begin];
    var late := [PressEnter(text), Receive, Begin, PressEsc];
    assert early + [Poll] == [PressEnter(text), PressEsc, Receive, Begin, Poll];
    assert late + [Poll] == [PressEnter(text), Receive, Begin, PressEsc, Poll];
    ExecSnoc(position, [PressEnter(text), PressEsc, Receive, Begin], Poll);
    ExecSnoc(position, [PressEnter(text), Receive, Begin, PressEsc], Poll);
  }

  lemma PressedEarly(position: nat, text: string)
    ensures var lost := Exec(position, [PressEnter(text), PressEsc, Receive, Begin]);
      lost.Some? && lost.value.worker == Running(0) && !lost.value.cancel
  {
    hide Exec;
    var first := PressEnter(text);
    ExecSnoc(position, [], first);
    ExecSnoc(position, [first], PressEsc);
    ExecSnoc(position, [first, PressEsc], Receive);
    ExecSnoc(position, [first, PressEsc, Receive], Begin);
    assert [] + [first] == [first] && [first] + [PressEsc] == [first, PressEsc];
    assert [first, PressEsc] + [Receive] == [first, PressEsc, Receive];
    assert [first, PressEsc, Receive] + [Begin] == [first, PressEsc, Receive, Begin];
  }

  lemma PressedLate(position: nat, text: string)
    ensures var seen := Exec(position, [PressEnter(text), Receive, Begin, PressEsc]);
      seen.Some? && seen.value.worker == Running(0) && seen.value.cancel
  {
    hide Exec;
    var first := PressEnter(text);
    ExecSnoc(position, [], first);
    ExecSnoc(position, [first], Receive);
    ExecSnoc(position, [first, Receive], Begin);
    ExecSnoc(position, [first, Receive, Begin], PressEsc);
    assert [] + [first] == [first] && [first] + [Receive] == [first, Receive];
    assert [first, Receive] + [Begin] == [first, Receive, Begin];
    assert [first, Receive, Begin] + [PressEsc] == [first, Receive, Begin, PressEsc];
  }

  lemma {:induction false} ExecSnoc(position: nat, steps: seq<Step>, step: Step)
    ensures Exec(position, []) == Some(Init(position))
    ensures Exec(position, steps + [step])
         == (if Exec(position, steps).Some? && Enabled(Exec(position, steps).value, step)
             then Some(Do(Exec(position, steps).value, step)) else None)
  {
    assert (steps + [step])[..|steps + [step]| - 1] == steps;
  }

  // ---------------------------------------------------------------------------
  // When an Esc reaches the turn on screen
  // ---------------------------------------------------------------------------

  /** Turn `t` is neither queued nor about to start, and while it runs the flag is set. */
  predicate Flagged(s: State, t: nat) {
    && s.sent > t && s.worker != Starting(t) && (s.worker == Running(t) ==> s.cancel)
    && forall i :: 0 <= i < |s.cmds| && s.cmds[i].Send? ==> s.cmds[i].turn != t
  }

  /** While turn `t` runs the flag is clear. */
  predicate Unflagged(s: State, t: nat) {
    s.worker == Running(t) ==> !s.cancel
  }

  /** Turn `t` will not run again. */
  predicate Over(s: State, t: nat) {
    && s.sent > t && s.worker != Starting(t) && s.worker != Running(t)
    && forall i :: 0 <= i < |s.cmds| && s.cmds[i].Send? ==> s.cmds[i].turn != t
  }

  /** What no step but another Esc changes. */
  lemma EscStep(s: State, step: Step, t: nat)
    requires Enabled(s, step)
    ensures Flagged(s, t) ==> Flagged(Do(s, step), t)
    ensures Unflagged(s, t) && step != PressEsc ==> Unflagged(Do(s, step), t)
    ensures Over(s, t) ==> Over(Do(s, step), t)
  {
    hide ApplyTokenEvent, StartTurn;
  }

  /** The turn on screen at the press, and what holds of it afterwards. */
  lemma EscPressed(s: State)
    requires Inv(s) && Enabled(s, PressEsc)
    ensures s.sent > 0
    ensures var t := Do(s, PressEsc);
      && (s.worker.Running? ==> Flagged(t, s.sent - 1))
      && (!s.worker.Running? ==> Unflagged(t, s.sent - 1))
      && (!s.worker.Running? && !s.worker.Starting? && Sends(s.cmds) == 0 ==> Over(t, s.sent - 1))
  {
    hide Queued, Results, ShownAfter, LogIsWhole, LogIsSettled, EventsInOrder;
    NoSends(s.cmds);
  }

  lemma {:induction false} AfterEsc(position: nat, steps: seq<Step>, more: seq<Step>)
    requires Exec(position, steps).Some? && Enabled(Exec(position, steps).value, PressEsc)
    requires PressEsc !in more && Exec(position, steps + [PressEsc] + more).Some?
    ensures var s, now := Exec(position, steps).value, Exec(position, steps + [PressEsc] + more).value;
      && s.sent > 0
      && (s.worker.Running? ==> Flagged(now, s.sent - 1))
      && (!s.worker.Running? ==> Unflagged(now, s.sent - 1))
      && (!s.worker.Running? && !s.worker.Starting? && Sends(s.cmds) == 0 ==> Over(now, s.sent - 1))
    decreases |more|
  {
    hide Exec, Inv, Do, Enabled, Flagged, Unflagged, Over, Sends;
    var s := Exec(position, steps).value;
    ExecInv(position, steps);
    EscPressed(s);
    if more == [] {
      assert steps + [PressEsc] + more == steps + [PressEsc];
      ExecSnoc(position, steps, PressEsc);
    } else {
      var n := |more| - 1;
      var before := steps + [PressEsc] + more[..n];
      assert before + [more[n]] == steps + [PressEsc] + more;
      ExecSnoc(position, before, more[n]);
      AfterEsc(position, steps, more[..n]);
      EscStep(Exec(position, before).value, more[n], s.sent - 1);
    }
  }

  /**
    In every run: a poll of the turn on screen that follows an Esc, after whatever other steps
    of either thread but a second Esc, ends the turn exactly when the worker was already
    running it at the press.
    */
  lemma EscIsSeen(position: nat, steps: seq<Step>, more: seq<Step>)
    requires Exec(position, steps).Some? && Enabled(Exec(position, steps).value, PressEsc)
    requires PressEsc !in more && Exec(position, steps + [PressEsc] + more).Some?
    requires var s := Exec(position, steps).value;
      s.sent > 0 && Exec(position, steps + [PressEsc] + more).value.worker == Running(s.sent - 1)
    ensures var s, now := Exec(position, steps).value, Exec(position, steps + [PressEsc] + more).value;
      Do(now, Poll).worker == (if s.worker.Running? then Ending(s.sent - 1, true) else Running(s.sent - 1))
  {
    hide Exec, Inv;
    AfterEsc(position, steps, more);
  }

  /**
    An Esc pressed once the turn has stopped polling is too late: with the turn neither queued,
    starting nor running, no continuation polls it again.
    */
  lemma EscIsTooLate(position: nat, steps: seq<Step>, more: seq<Step>)
    requires Exec(position, steps).Some? && Enabled(Exec(position, steps).value, PressEsc)
    requires PressEsc !in more && Exec(position, steps + [PressEsc] + more).Some?
    requires var s := Exec(position, steps).value;
      !s.worker.Running? && !s.worker.Starting? && Sends(s.cmds) == 0
    ensures var s, now := Exec(position, steps).value, Exec(position, steps + [PressEsc] + more).value;
      s.sent > 0 && now.worker != Running(s.sent - 1)
  {
    hide Exec, Inv, Sends;
    AfterEsc(position, steps, more);
  }

  // ---------------------------------------------------------------------------
  // Conversations
  // ---------------------------------------------------------------------------

  lemma {:induction false} ThenConcat(s: State, a: seq<Step>, b: seq<Step>)
    ensures Then(s, a + b) == match Then(s, a) case None => None case Some(t) => Then(t, b)
    decreases |b|
  {
    hide Do, Enabled;
    if b == [] {
      assert a + b == a;
    } else {
      ThenConcat(s, a, b[..|b| - 1]);
      assert (a + b)[..|a + b| - 1] == a + b[..|b| - 1];
    }
  }

  lemma ThenOne(s: State, step: Step)
    requires Enabled(s, step)
    ensures Then(s, [step]) == Some(Do(s, step))
  {
    assert [step][..0] == [];
    assert Then(s, []) == Some(s);
  }

  /** A finished exchange: the question, the pieces of the reply as they were sent, its tokens and the position after it. */
  datatype Exchange = Exchange(question: string, pieces: seq<string>, generated: nat, position: nat)

  function Joined(pieces: seq<string>): string {
    if pieces == [] then "" else Joined(pieces[..|pieces| - 1]) + pieces[|pieces| - 1]
  }

  function Emits(pieces: seq<string>): (r: seq<Step>)
    ensures |r| == |pieces|
  {
    seq(|pieces|, i requires 0 <= i < |pieces| => Emit(pieces[i]))
  }

  function Chunks(turn: nat, pieces: seq<string>): (r: seq<Event>)
    ensures |r| == |pieces|
  {
    seq(|pieces|, i requires 0 <= i < |pieces| => Chunk(turn, pieces[i]))
  }

  function Drains(n: nat): (r: seq<Step>)
    ensures |r| == n
  {
    seq(n, _ => Drain)
  }

  /** The key press, the worker's turn, and the interface catching up. */
  function StepsOf(x: Exchange): seq<Step> {
    [PressEnter(x.question), Receive, Begin] + Emits(x.pieces)
    + [End(true, x.generated, x.position), ReportPosition, Report] + Drains(|x.pieces| + 2)
  }

  /** Nothing is under way and nothing is queued. */
  predicate Quiet(s: State) {
    && s.open && !s.ui.generating && s.cmds == [] && s.events == [] && s.worker.Waiting?
    && |s.emitted| == s.sent && s.ui.tokenPosition == s.enginePosition
  }

  lemma Opens(s: State, text: string)
    requires Quiet(s)
    ensures Then(s, [PressEnter(text), Receive, Begin])
         == Some(s.(ui := Ui(true, "", s.ui.log + [DisplayMsg(FromUser(s.sent), text)], s.ui.tokenPosition),
                    worker := Running(s.sent), cancel := false, sent := s.sent + 1, emitted := s.emitted + [""]))
  {
    hide Then;
    var a := Do(s, PressEnter(text));
    assert a.cmds == [Send(s.sent, text)] && a.cmds[1..] == [];
    var b := Do(a, Receive);
    assert b.worker == Starting(s.sent) && b.cmds == s.cmds;
    ThenOne(s, PressEnter(text));
    ThenConcat(s, [PressEnter(text)], [Receive]);
    ThenOne(a, Receive);
    ThenConcat(s, [PressEnter(text), Receive], [Begin]);
    ThenOne(b, Begin);
    assert [PressEnter(text)] + [Receive] == [PressEnter(text), Receive];
    assert [PressEnter(text), Receive] + [Begin] == [PressEnter(text), Receive, Begin];
  }

  lemma {:induction false} Sending(s: State, turn: nat, pieces: seq<string>)
    requires s.worker == Running(turn) && turn < |s.emitted|
    ensures Then(s, Emits(pieces))
         == Some(s.(events := s.events + Chunks(turn, pieces), emitted := s.emitted[turn := s.emitted[turn] + Joined(pieces)]))
  {
    hide Do, Enabled;
    if pieces == [] {
      assert s.events + Chunks(turn, pieces) == s.events;
      assert s.emitted[turn] + "" == s.emitted[turn];
      assert s.emitted[turn := s.emitted[turn]] == s.emitted;
    } else {
      var n := |pieces| - 1;
      Sending(s, turn, pieces[..n]);
      assert Emits(pieces)[..n] == Emits(pieces[..n]) && Emits(pieces)[n] == Emit(pieces[n]);
      SendsOne(s, turn, Chunks(turn, pieces[..n]), Joined(pieces[..n]), pieces[n]);
      assert Chunks(turn, pieces) == Chunks(turn, pieces[..n]) + [Chunk(turn, pieces[n])];
    }
  }

  /** One piece more, after some are out. */
  lemma SendsOne(s: State, turn: nat, chunks: seq<Event>, text: string, piece: string)
    requires s.worker == Running(turn) && turn < |s.emitted|
    ensures var before := s.(events := s.events + chunks, emitted := s.emitted[turn := s.emitted[turn] + text]);
      && Enabled(before, Emit(piece))
      && Do(before, Emit(piece)) == s.(events := s.events + (chunks + [Chunk(turn, piece)]),
                                       emitted := s.emitted[turn := s.emitted[turn] + (text + piece)])
  {
    var once := s.emitted[turn := s.emitted[turn] + text];
    assert once[turn := once[turn] + piece] == s.emitted[turn := once[turn] + piece];
    assert s.emitted[turn] + (text + piece) == s.emitted[turn] + text + piece;
    assert s.events + (chunks + [Chunk(turn, piece)]) == s.events + chunks + [Chunk(turn, piece)];
  }

  lemma Closes(s: State, turn: nat, generated: nat, position: nat)
    requires s.worker == Running(turn)
    ensures Then(s, [End(true, generated, position), ReportPosition, Report])
         == Some(s.(worker := Waiting, enginePosition := position,
                    events := s.events + [StateChanged(position), Done(turn, false, generated)]))
  {
    var e := End(true, generated, position);
    var a := Do(s, e);
    var b := Do(a, ReportPosition);
    ThenOne(s, e);
    ThenConcat(s, [e], [ReportPosition]);
    ThenOne(a, ReportPosition);
    ThenConcat(s, [e, ReportPosition], [Report]);
    ThenOne(b, Report);
    assert [e] + [ReportPosition] == [e, ReportPosition];
    assert [e, ReportPosition] + [Report] == [e, ReportPosition, Report];
    assert s.events + [StateChanged(position)] + [Done(turn, false, generated)]
        == s.events + [StateChanged(position), Done(turn, false, generated)];
  }

  lemma {:induction false} Catching(s: State, turn: nat, pieces: seq<string>, rest: seq<Event>)
    requires s.open && s.events == Chunks(turn, pieces) + rest
    ensures Then(s, Drains(|pieces|)) == Some(s.(ui := s.ui.(streaming := s.ui.streaming + Joined(pieces)), events := rest))
    decreases |pieces|
  {
    if pieces == [] {
      assert Chunks(turn, pieces) + rest == rest;
      assert s.ui.streaming + "" == s.ui.streaming;
    } else {
      var n := |pieces| - 1;
      var last := Chunk(turn, pieces[n]);
      assert Chunks(turn, pieces) + rest == Chunks(turn, pieces[..n]) + ([last] + rest);
      Catching(s, turn, pieces[..n], [last] + rest);
      assert Drains(|pieces|)[..n] == Drains(n);
      assert ([last] + rest)[1..] == rest;
      assert s.ui.streaming + Joined(pieces) == s.ui.streaming + Joined(pieces[..n]) + pieces[n];
    }
  }

  lemma Shows(s: State, turn: nat, generated: nat, position: nat)
    requires s.open && s.events == [StateChanged(position), Done(turn, false, generated)]
    ensures Then(s, Drains(2))
         == Some(s.(ui := Ui(false, "", s.ui.log + [DisplayMsg(FromBot(turn), s.ui.streaming)], position), events := []))
  {
    var a := Do(s, Drain);
    ThenOne(s, Drain);
    ThenConcat(s, [Drain], [Drain]);
    assert s.events[1..] == [Done(turn, false, generated)];
    ThenOne(a, Drain);
    assert [Drain] + [Drain] == Drains(2);
    assert a.events[1..] == [];
  }

  /**
    An exchange from any quiet state: the log gains the question and one reply made of all
    the pieces in the order they were sent, the position is the engine's, and the state is
    quiet again.
    */
  lemma ExchangeIsLogged(s: State, x: Exchange)
    requires Quiet(s)
    ensures var t := Then(s, StepsOf(x));
      && t.Some? && Quiet(t.value) && t.value.sent == s.sent + 1
      && t.value.ui.log == s.ui.log + [DisplayMsg(FromUser(s.sent), x.question), DisplayMsg(FromBot(s.sent), Joined(x.pieces))]
      && t.value.ui.tokenPosition == x.position
  {
    hide Then, Do, Enabled;
    var opening, closing := [PressEnter(x.question), Receive, Begin], [End(true, x.generated, x.position), ReportPosition, Report];
    var sending, n := Emits(x.pieces), |x.pieces|;
    Opens(s, x.question);
    var a := Then(s, opening).value;
    Sending(a, s.sent, x.pieces);
    var b := Then(a, sending).value;
    Closes(b, s.sent, x.generated, x.position);
    var c := Then(b, closing).value;
    assert b.events == Chunks(s.sent, x.pieces);
    Catching(c, s.sent, x.pieces, [StateChanged(x.position), Done(s.sent, false, x.generated)]);
    var d := Then(c, Drains(n)).value;
    Shows(d, s.sent, x.generated, x.position);
    ThenConcat(s, opening, sending);
    ThenConcat(s, opening + sending, closing);
    ThenConcat(s, opening + sending + closing, Drains(n));
    ThenConcat(s, opening + sending + closing + Drains(n), Drains(2));
    assert Drains(n) + Drains(2) == Drains(n + 2);
    assert opening + sending + closing + Drains(n) + Drains(2) == StepsOf(x);
    assert "" + Joined(x.pieces) == Joined(x.pieces);
    assert s.ui.log + [DisplayMsg(FromUser(s.sent), x.question)] + [DisplayMsg(FromBot(s.sent), Joined(x.pieces))]
        == s.ui.log + [DisplayMsg(FromUser(s.sent), x.question), DisplayMsg(FromBot(s.sent), Joined(x.pieces))];
  }

  /** Two lines for each exchange. */
  predicate IsLog(log: seq<DisplayMsg>, xs: seq<Exchange>) {
    && |log| == 2 * |xs|
    && forall i: nat :: i < |xs| ==>
         && log[2 * i] == DisplayMsg(FromUser(i), xs[i].question)
         && log[2 * i + 1] == DisplayMsg(FromBot(i), Joined(xs[i].pieces))
  }

  lemma LogGrows(log: seq<DisplayMsg>, xs: seq<Exchange>, x: Exchange)
    requires IsLog(log, xs)
    ensures IsLog(log + [DisplayMsg(FromUser(|xs|), x.question), DisplayMsg(FromBot(|xs|), Joined(x.pieces))], xs + [x])
  {
    hide Joined;
  }

  function AllSteps(xs: seq<Exchange>): seq<Step> {
    if xs == [] then [] else AllSteps(xs[..|xs| - 1]) + StepsOf(xs[|xs| - 1])
  }

  /** After any number of exchanges the log is all questions and replies in turn. */
  lemma {:induction false} ConversationIsLogged(position: nat, xs: seq<Exchange>)
    ensures var t := Exec(position, AllSteps(xs));
      t.Some? && Quiet(t.value) && t.value.sent == |xs| && IsLog(t.value.ui.log, xs)
  {
    hide StepsOf, IsLog, Do, Enabled, Joined;
    if xs == [] {
      EmptyLog();
    } else {
      var n := |xs| - 1;
      ConversationIsLogged(position, xs[..n]);
      var s := Then(Init(position), AllSteps(xs[..n])).value;
      ThenConcat(Init(position), AllSteps(xs[..n]), StepsOf(xs[n]));
      ExchangeIsLogged(s, xs[n]);
      LogGrows(s.ui.log, xs[..n], xs[n]);
      assert xs[..n] + [xs[n]] == xs;
    }
  }

  lemma EmptyLog()
    ensures IsLog([], [])
  {
  }
}
