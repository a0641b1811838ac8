/**
 The debug console (src/debug.rs): a line editor fed one received character
 at a time, a FIFO queue of entered commands, a processor that takes one
 command per frame and toggles the FPS display on "FPS", and the F1 toggle
 that shows or hides the console.
 */
module Console {

  /** Whether the FPS counter is shown. */
  datatype FpsState = FpsOn | FpsOff

  /** Whether the console is shown. */
  datatype ConsoleState = ConsoleOn | ConsoleOff

  /** The line being typed and the commands entered but not yet processed. */
  datatype DebugParams = DebugParams(consoleInput: string, commandQueue: seq<string>)

  /** The console's parameters together with the command text it displays. */
  datatype ConsoleView = ConsoleView(params: DebugParams, commandText: string)

  const Backspace: char := '\U{0008}'

  /** The console starts with an empty line and an empty queue. */
  const InitialParams := DebugParams("", [])

  /** The console's command text starts as the (empty) line. */
  const InitialView := ConsoleView(InitialParams, InitialParams.consoleInput)

  /** Both the console and the FPS display start hidden. */
  const InitialConsole := ConsoleOff
  const InitialFps := FpsOff

  /** Characters that end the line being typed. */
  predicate IsLineEnd(c: char) {
    c == '\n' || c == '\r'
  }

  /** Every other character, control characters included, is typed into the line as it is. */
  predicate IsOrdinary(c: char) {
    !IsLineEnd(c) && c != Backspace
  }

  /**
   One received character: a line end queues the line and clears it; a
   backspace drops the line's last character, if any; anything else is
   appended to the line.
   */
  function ReceiveChar(p: DebugParams, c: char): (r: DebugParams)
    ensures IsLineEnd(c) ==>
      r.commandQueue == p.commandQueue + [p.consoleInput] && r.consoleInput == ""
    ensures c == Backspace ==> r.commandQueue == p.commandQueue
    ensures c == Backspace && p.consoleInput == "" ==> r.consoleInput == ""
    ensures c == Backspace && p.consoleInput != "" ==>
      p.consoleInput == r.consoleInput + [p.consoleInput[|p.consoleInput| - 1]]
    ensures IsOrdinary(c) ==>
      r.commandQueue == p.commandQueue && r.consoleInput == p.consoleInput + [c]
  {
    if IsLineEnd(c) then
      DebugParams("", p.commandQueue + [p.consoleInput])
    else if c == Backspace then
      var input := p.consoleInput;
      DebugParams(if input == "" then "" else input[..|input| - 1], p.commandQueue)
    else
      DebugParams(p.consoleInput + [c], p.commandQueue)
  }

  /** The number of line ends in `events`. */
  function LineEnds(events: seq<char>): nat {
    if events == [] then 0
    else LineEnds(events[..|events| - 1]) + (if IsLineEnd(events[|events| - 1]) then 1 else 0)
  }

  /**
   The characters received in one frame, in order. After each one the
   displayed command text is set to the line being typed, so it is left
   alone only when nothing was received. Commands are only ever appended to
   the queue, one per line end.
   */
  function UpdateConsoleInput(v: ConsoleView, events: seq<char>): (r: ConsoleView)
    ensures events == [] ==> r == v
    ensures events != [] ==> r.commandText == r.params.consoleInput
    ensures v.params.commandQueue <= r.params.commandQueue
    ensures |r.params.commandQueue| == |v.params.commandQueue| + LineEnds(events)
  {
    if events == [] then v
    else
      var prev := UpdateConsoleInput(v, events[..|events| - 1]);
      var p := ReceiveChar(prev.params, events[|events| - 1]);
      ConsoleView(p, p.consoleInput)
  }

  /** ASCII upper case; every other character is left as it is. */
  function UpperChar(c: char): (u: char)
    ensures 'a' <= c <= 'z' ==> u as int == c as int - 32
    ensures !('a' <= c <= 'z') ==> u == c
  {
    if 'a' <= c <= 'z' then (c as int - 32) as char else c
  }

  function ToUpper(s: string): (u: string)
    ensures |u| == |s|
    ensures forall i :: 0 <= i < |s| ==> u[i] == UpperChar(s[i])
  {
    if s == "" then "" else [UpperChar(s[0])] + ToUpper(s[1..])
  }

  /** A command that switches the FPS display. */
  predicate IsFpsCommand(cmd: string) {
    ToUpper(cmd) == "FPS"
  }

  function FlipFps(f: FpsState): FpsState {
    if f == FpsOn then FpsOff else FpsOn
  }

  /**
   One frame of command processing: on an empty queue nothing happens;
   otherwise the first command is removed, and it flips the FPS display
   exactly when it reads "FPS" in any letter case.
   */
  function CommandsProcessor(p: DebugParams, fps: FpsState): (r: (DebugParams, FpsState))
    ensures p.commandQueue == [] ==> r == (p, fps)
    ensures p.commandQueue != [] ==>
      && [p.commandQueue[0]] + r.0.commandQueue == p.commandQueue
      && r.0.consoleInput == p.consoleInput
      && (r.1 != fps <==> IsFpsCommand(p.commandQueue[0]))
  {
    if |p.commandQueue| > 0 then
      var command := p.commandQueue[0];
      var rest := p.commandQueue[1..];
      var fps' := if IsFpsCommand(command) then FlipFps(fps) else fps;
      (DebugParams(p.consoleInput, rest), fps')
    else
      (p, fps)
  }

  /** F1 just pressed flips the console between shown and hidden. */
  function ToggleConsole(f1JustPressed: bool, state: ConsoleState): (r: ConsoleState)
    ensures f1JustPressed <==> r != state
  {
    if f1JustPressed then
      match state
      case ConsoleOn => ConsoleOff
      case ConsoleOff => ConsoleOn
    else
      state
  }

  /** A command is "FPS" exactly when it is three letters f, p, s in either case. */
  lemma FpsCommandSpelling(cmd: string)
    ensures IsFpsCommand(cmd) <==>
      && |cmd| == 3
      && (cmd[0] == 'f' || cmd[0] == 'F')
      && (cmd[1] == 'p' || cmd[1] == 'P')
      && (cmd[2] == 's' || cmd[2] == 'S')
  {
    if |cmd| == 3 {
      var u := ToUpper(cmd);
      assert u == [u[0], u[1], u[2]];
    }
  }

  /** Backspace undoes typing an ordinary character. */
  lemma BackspaceUndoesTyping(p: DebugParams, c: char)
    requires IsOrdinary(c)
    ensures ReceiveChar(ReceiveChar(p, c), Backspace) == p
  {
    assert (p.consoleInput + [c])[..|p.consoleInput|] == p.consoleInput;
  }

  /** Typing ordinary characters appends them to the line. */
  lemma {:induction false} TypingAppends(v: ConsoleView, word: string)
    requires forall i :: 0 <= i < |word| ==> IsOrdinary(word[i])
    ensures UpdateConsoleInput(v, word).params ==
      DebugParams(v.params.consoleInput + word, v.params.commandQueue)
  {
    if word != "" {
      var front := word[..|word| - 1];
      TypingAppends(v, front);
      assert v.params.consoleInput + front + [word[|word| - 1]] == v.params.consoleInput + word;
    }
  }

  /**
   Typing a word and pressing enter queues the whole line, the word
   appended to what was already typed, at the back of the queue and leaves
   the line empty.
   */
  lemma EnterQueuesTypedWord(v: ConsoleView, word: string, enter: char)
    requires forall i :: 0 <= i < |word| ==> IsOrdinary(word[i])
    requires IsLineEnd(enter)
    ensures UpdateConsoleInput(v, word + [enter]) ==
      ConsoleView(DebugParams("", v.params.commandQueue + [v.params.consoleInput + word]), "")
  {
    var events := word + [enter];
    assert events[..|word|] == word;
    TypingAppends(v, word);
    var typed := UpdateConsoleInput(v, word);
    var after := ReceiveChar(typed.params, enter);
    assert after == DebugParams("", v.params.commandQueue + [v.params.consoleInput + word]);
    assert UpdateConsoleInput(v, events) == ConsoleView(after, after.consoleInput);
  }

  /** The number of FPS commands in `cmds`. */
  function FpsCommands(cmds: seq<string>): nat {
    if cmds == [] then 0 else (if IsFpsCommand(cmds[0]) then 1 else 0) + FpsCommands(cmds[1..])
  }

  /** `n` frames of command processing. */
  function ProcessFrames(p: DebugParams, fps: FpsState, n: nat): (DebugParams, FpsState)
    decreases n
  {
    if n == 0 then (p, fps)
    else
      var (p', fps') := CommandsProcessor(p, fps);
      ProcessFrames(p', fps', n - 1)
  }

  /**
   The queue is first in, first out: after one frame per queued command the
   queue is empty, the line is untouched, and the FPS display has flipped
   exactly when an odd number of the commands read "FPS".
   */
  lemma {:induction false} DrainQueue(p: DebugParams, fps: FpsState)
    ensures var (p', fps') := ProcessFrames(p, fps, |p.commandQueue|);
      && p' == DebugParams(p.consoleInput, [])
      && (fps' == fps <==> FpsCommands(p.commandQueue) % 2 == 0)
    decreases |p.commandQueue|
  {
    if p.commandQueue != [] {
      var (p1, fps1) := CommandsProcessor(p, fps);
      DrainQueue(p1, fps1);
    }
  }

  /** Pressing F1 twice restores the console's state. */
  lemma ToggleTwice(state: ConsoleState)
    ensures ToggleConsole(true, ToggleConsole(true, state)) == state
  {
  }

  /**
   From start-up: F1 shows the console, and a word typed and entered is
   processed on the next frame, leaving the console as it started and
   showing the FPS display exactly when the word reads "FPS".
   */
  lemma FirstCommandFromStartup(word: string, enter: char)
    requires forall i :: 0 <= i < |word| ==> IsOrdinary(word[i])
    requires IsLineEnd(enter)
    ensures ToggleConsole(true, InitialConsole) == ConsoleOn
    ensures var v := UpdateConsoleInput(InitialView, word + [enter]);
      && v.commandText == ""
      && CommandsProcessor(v.params, InitialFps) ==
           (InitialParams, if IsFpsCommand(word) then FpsOn else FpsOff)
  {
    EnterQueuesTypedWord(InitialView, word, enter);
    assert InitialView.params.consoleInput + word == word;
  }
}
