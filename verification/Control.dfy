/** The run, pause and quit control of the scraper through its control file. */
module Control {
  import opened Util

  datatype State = Stopped | Running | Paused

  /** The state a control file stands for; a missing or unknown one means stopped. */
  function StateOf(file: Option<string>): State {
    if file == Some("running") then Running else if file == Some("paused") then Paused else Stopped
  }

  datatype Change = Change(file: Option<string>, state: State, enters: bool)

  /** changeState; `enters` is its result false, the only one with which the caller goes on to scrape. */
  function Command(file: Option<string>, mode: string): Change {
    match StateOf(file)
    case Stopped =>
      if mode == "run" || mode == "" then Change(Some("running"), Running, true) else Change(file, Stopped, false)
    case Running =>
      if mode == "pause" then Change(Some("paused"), Paused, false)
      else if mode == "quit" then Change(None, Stopped, false)
      else Change(file, Running, false)
    case Paused =>
      if mode == "restart" || mode == "run" then Change(Some("running"), Running, false)
      else if mode == "quit" then Change(None, Stopped, false)
      else Change(file, Paused, false)
  }

  /** What a command does to the control file, spelled out: a stopped scraper runs, and the caller enters, exactly
      on "run" or nothing; a running one pauses exactly on "pause"; a paused one runs exactly on "restart" or "run";
      one that is not stopped stops exactly on "quit"; and nothing else changes the file. */
  predicate Moves(before: Option<string>, mode: string, after: Option<string>, result: bool) {
    var running, paused := Some("running"), Some("paused");
    if before == running then
      && (after == paused <==> mode == "pause")
      && (after == None <==> mode == "quit")
      && (mode != "pause" && mode != "quit" ==> after == running)
      && result
    else if before == paused then
      && (after == running <==> mode == "restart" || mode == "run")
      && (after == None <==> mode == "quit")
      && (mode != "restart" && mode != "run" && mode != "quit" ==> after == paused)
      && result
    else
      && (!result <==> mode == "run" || mode == "")
      && after == (if result then before else running)
  }

  class Options {
    var controlFile: Option<string>
    var state: State

    method GetCurrentState() returns (s: State)
      modifies this`state
      ensures s == state == StateOf(controlFile)
    {
      if controlFile == Some("running") {
        state := Running;
      } else if controlFile == Some("paused") {
        state := Paused;
      } else {
        state := Stopped;
      }
      s := state;
    }

    /** After every command the field and the control file tell the same state. */
    method ChangeState(mode: string) returns (result: bool)
      modifies this
      ensures Change(controlFile, state, !result) == Command(old(controlFile), mode)
      ensures StateOf(controlFile) == state
      ensures Moves(old(controlFile), mode, controlFile, result)
    {
      state := GetCurrentState();
      result := true;
      match state {
        case Stopped =>
          if mode == "run" || mode == "" {
            controlFile := Some("running");
            state := Running;
            result := false;
          }
        case Running =>
          if mode == "pause" {
            controlFile := Some("paused");
            state := Paused;
          } else if mode == "quit" {
            controlFile := None;
            state := Stopped;
          }
        case Paused =>
          if mode == "restart" || mode == "run" {
            controlFile := Some("running");
            state := Running;
          } else if mode == "quit" {
            controlFile := None;
            state := Stopped;
          }
      }
    }
  }

  /** An invocation with some mode, which at the end of a scraper is "quit"; or a scraper that was asked to
      quit with control+C and removes the files on its list, the control file among them. */
  datatype Event = Invoked(mode: string) | Interrupted

  function Next(file: Option<string>, e: Event): Change {
    match e
    case Invoked(mode) => Command(file, mode)
    case Interrupted => Change(None, Stopped, false)
  }

  /** The control file before event number `n`. */
  function FileAt(file: Option<string>, events: seq<Event>, n: nat): Option<string>
    requires n <= |events|
  {
    if n == 0 then file else Next(FileAt(file, events, n - 1), events[n - 1]).file
  }

  predicate EntersAt(file: Option<string>, events: seq<Event>, n: nat)
    requires n < |events|
  {
    Next(FileAt(file, events, n), events[n]).enters
  }

  /** Event number `n` stops a scraper that was not stopped. */
  predicate StopsAt(file: Option<string>, events: seq<Event>, n: nat)
    requires n < |events|
  {
    StateOf(FileAt(file, events, n)) != Stopped && StateOf(FileAt(file, events, n + 1)) == Stopped
  }

  /** A scraper that is not stopped at event `i` and is at event `j` was stopped in between. */
  lemma {:induction false} StoppedBetween(file: Option<string>, events: seq<Event>, i: nat, j: nat) returns (k: nat)
    requires i < j <= |events|
    requires StateOf(FileAt(file, events, i)) != Stopped && StateOf(FileAt(file, events, j)) == Stopped
    ensures i <= k < j && StopsAt(file, events, k)
    decreases j - i
  {
    if StateOf(FileAt(file, events, i + 1)) == Stopped {
      k := i;
    } else {
      k := StoppedBetween(file, events, i + 1, j);
    }
  }

  /** Between two events that enter scraping there is one that stopped the scraper, and only "quit" and
      control+C do that. */
  lemma EntriesAreSeparated(file: Option<string>, events: seq<Event>, i: nat, j: nat) returns (k: nat)
    requires i < j < |events| && EntersAt(file, events, i) && EntersAt(file, events, j)
    ensures i < k < j && StopsAt(file, events, k) && (events[k] == Invoked("quit") || events[k] == Interrupted)
  {
    assert StateOf(FileAt(file, events, i + 1)) == Running;
    k := StoppedBetween(file, events, i + 1, j);
  }
}
