/**
  The interactive loop of main.py: a read-toggle-gate-dispatch cycle over
  input lines with one mutable mode flag (plain or GPT). The console is an
  input sequence and an output trace; the end of the input stands for a
  Ctrl-C at the prompt, which ends a session normally.
 */
module Session {
  import opened Wrappers
  import opened Engine

  /** The reserved input that flips the mode. */
  const TOGGLE := "\t"

  const PROMPT := ">>> "
  const GPT_TAG := "[gpt] "

  /** What happened to one search request. */
  datatype Outcome =
    | Printed(text: string)   // the answer was printed
    | Swallowed               // a ValueError, caught; the loop goes on
    | Interrupted             // a KeyboardInterrupt, caught by the outer handler; `run` returns normally
    | Escaped                 // any other exception, which leaves `run` uncaught

  datatype Action =
    | Toggle
    | Advisory
    | Search(query: string, useGpt: bool, outcome: Outcome)

  /** One iteration: the prompt shown, the line read, and what the loop did with it. */
  datatype Step = Step(prompt: string, line: string, action: Action)

  /** The effective OpenAI key: the command-line one, else the environment's, else none. */
  function ResolveKey(cliKey: Option<string>, envKey: Option<string>): (key: Option<string>)
    ensures cliKey.Some? ==> key == cliKey
    ensures cliKey.None? ==> key == envKey
    ensures key.None? <==> cliKey.None? && envKey.None?
  {
    if cliKey.Some? then cliKey else envKey
  }

  /** The input prompt: `>>> `, preceded by `[gpt] ` in GPT mode. */
  function Prompt(useGpt: bool): (p: string) {
    (if useGpt then GPT_TAG else "") + PROMPT
  }

  /** The prompts are `>>> ` and `[gpt] >>> `; both end in `>>> `, and the prompt tells the two modes apart. */
  lemma PromptShowsMode(useGpt: bool, other: bool)
    ensures Prompt(false) == ">>> " && Prompt(true) == "[gpt] >>> "
    ensures |Prompt(useGpt)| >= |PROMPT| && Prompt(useGpt)[|Prompt(useGpt)| - |PROMPT|..] == PROMPT
    ensures Prompt(useGpt) == Prompt(other) <==> useGpt == other
  {
  }

  function OutcomeOf(r: Result<string, Raised>): (o: Outcome)
    ensures r.Success? <==> o.Printed?
    ensures r.Success? ==> o.text == r.value
    ensures o.Swallowed? <==> r == Failure(ValueError)
    ensures o.Interrupted? <==> r == Failure(KeyboardInterrupt)
    ensures o.Escaped? <==> r == Failure(OtherException)
  {
    match r
    case Success(text) => Printed(text)
    case Failure(ValueError) => Swallowed
    case Failure(KeyboardInterrupt) => Interrupted
    case Failure(OtherException) => Escaped
  }

  /** The mode after one line: only the toggle changes it. */
  function NextMode(useGpt: bool, line: string): (next: bool) {
    if line == TOGGLE then !useGpt else useGpt
  }

  /** The mode after a run of lines. */
  function Mode(useGpt: bool, lines: seq<string>): (m: bool)
    decreases |lines|
  {
    if lines == [] then useGpt else Mode(NextMode(useGpt, lines[0]), lines[1..])
  }

  function CountToggles(lines: seq<string>): (n: nat) {
    if lines == [] then 0 else (if lines[0] == TOGGLE then 1 else 0) + CountToggles(lines[1..])
  }

  /** What the loop does with one line in a given mode. */
  function Respond(engine: EngineView, keyPresent: bool, useGpt: bool, line: string): (a: Action)
    ensures a.Toggle? <==> line == TOGGLE
    ensures a.Advisory? <==> line != TOGGLE && useGpt && !keyPresent
    ensures a.Search? <==> line != TOGGLE && (!useGpt || keyPresent)
    ensures a.Search? ==> a.query == line && a.useGpt == useGpt && a.outcome == OutcomeOf(Answer(engine, line, useGpt))
  {
    if line == TOGGLE then Toggle
    else if useGpt && !keyPresent then Advisory
    else Search(line, useGpt, OutcomeOf(Answer(engine, line, useGpt)))
  }

  /** A request whose exception gets past the per-request handler ends the session. */
  predicate Ends(a: Action) {
    a.Search? && (a.outcome.Interrupted? || a.outcome.Escaped?)
  }

  /** The trace of a session that starts in mode `useGpt` and reads `lines`. */
  function Steps(engine: EngineView, keyPresent: bool, useGpt: bool, lines: seq<string>): (trace: seq<Step>)
    decreases |lines|
  {
    if lines == [] then []
    else
      var a := Respond(engine, keyPresent, useGpt, lines[0]);
      var s := Step(Prompt(useGpt), lines[0], a);
      if Ends(a) then [s] else [s] + Steps(engine, keyPresent, NextMode(useGpt, lines[0]), lines[1..])
  }

  /** One guarded request: semantic_search, with a ValueError caught and anything else passed on. */
  method Request(engine: SearchEngine, query: string, useGpt: bool) returns (outcome: Outcome)
    ensures outcome == OutcomeOf(Answer(engine.View(), query, useGpt))
  {
    var r := engine.SemanticSearch(query, useGpt);
    outcome := OutcomeOf(r);
  }

  /** `run`: resolve the key, warn when there is none, then serve lines until the input ends or an exception gets past the per-request handler. */
  method Run(engine: SearchEngine, cliKey: Option<string>, envKey: Option<string>, lines: seq<string>)
    returns (warned: bool, trace: seq<Step>)
    ensures warned <==> cliKey.None? && envKey.None?
    ensures trace == Steps(engine.View(), ResolveKey(cliKey, envKey).Some?, false, lines)
  {
    var openaiKey := cliKey;
    warned := false;
    if openaiKey.None? {
      openaiKey := envKey;
      if openaiKey.None? {
        warned := true;
      }
    }
    ghost var view := engine.View();
    ghost var key := openaiKey.Some?;
    var useGpt := false;
    trace := [];
    var i := 0;
    while i < |lines|
      invariant 0 <= i <= |lines|
      invariant Steps(view, key, false, lines) == trace + Steps(view, key, useGpt, lines[i..])
    {
      var query := lines[i];
      var prompt := Prompt(useGpt);
      if query == TOGGLE {
        Advance(view, key, lines, i, trace, useGpt, Toggle);
        trace := trace + [Step(prompt, query, Toggle)];
        useGpt := !useGpt;
        i := i + 1;
        continue;
      }
      if useGpt && openaiKey.None? {
        Advance(view, key, lines, i, trace, useGpt, Advisory);
        trace := trace + [Step(prompt, query, Advisory)];
        i := i + 1;
        continue;
      }
      var outcome := Request(engine, query, useGpt);
      if outcome.Interrupted? || outcome.Escaped? {
        Finish(view, key, lines, i, trace, useGpt, Search(query, useGpt, outcome));
        trace := trace + [Step(prompt, query, Search(query, useGpt, outcome))];
        return;
      }
      Advance(view, key, lines, i, trace, useGpt, Search(query, useGpt, outcome));
      trace := trace + [Step(prompt, query, Search(query, useGpt, outcome))];
      i := i + 1;
    }
  }

  /** One iteration that does not end the session: its step joins the trace and the next line is read in the next mode. */
  lemma Advance(view: EngineView, key: bool, lines: seq<string>, i: nat, trace: seq<Step>, useGpt: bool, action: Action)
    requires i < |lines|
    requires Steps(view, key, false, lines) == trace + Steps(view, key, useGpt, lines[i..])
    requires action == Respond(view, key, useGpt, lines[i]) && !Ends(action)
    ensures Steps(view, key, false, lines)
         == (trace + [Step(Prompt(useGpt), lines[i], action)]) + Steps(view, key, NextMode(useGpt, lines[i]), lines[i + 1..])
  {
  }

  /** The iteration whose exception leaves `run`: its step is the last of the trace. */
  lemma Finish(view: EngineView, key: bool, lines: seq<string>, i: nat, trace: seq<Step>, useGpt: bool, action: Action)
    requires i < |lines|
    requires Steps(view, key, false, lines) == trace + Steps(view, key, useGpt, lines[i..])
    requires action == Respond(view, key, useGpt, lines[i]) && Ends(action)
    ensures Steps(view, key, false, lines) == trace + [Step(Prompt(useGpt), lines[i], action)]
  {
  }

  lemma {:induction false} ModeAppend(useGpt: bool, xs: seq<string>, ys: seq<string>)
    ensures Mode(useGpt, xs + ys) == Mode(Mode(useGpt, xs), ys)
    decreases |xs|
  {
    if xs == [] {
      assert xs + ys == ys;
    } else {
      assert (xs + ys)[1..] == xs[1..] + ys;
      ModeAppend(NextMode(useGpt, xs[0]), xs[1..], ys);
    }
  }

  /** The mode is the starting mode flipped once per toggle line: it depends only on the parity of the toggles. */
  lemma {:induction false} ModeParity(useGpt: bool, lines: seq<string>)
    ensures Mode(useGpt, lines) == (useGpt != (CountToggles(lines) % 2 == 1))
    decreases |lines|
  {
    if lines != [] {
      ModeParity(NextMode(useGpt, lines[0]), lines[1..]);
    }
  }

  /** Two toggles in a row give back the mode the session had before them. */
  lemma ToggleTwice(useGpt: bool, rest: seq<string>)
    ensures Mode(useGpt, [TOGGLE, TOGGLE] + rest) == Mode(useGpt, rest)
  {
  }

  /**
    Step k of the trace answers line k, in the mode left by the lines before
    it, under the prompt of that mode.
   */
  lemma {:induction false} StepAt(engine: EngineView, keyPresent: bool, useGpt: bool, lines: seq<string>, k: nat)
    requires k < |Steps(engine, keyPresent, useGpt, lines)|
    ensures k < |lines|
    ensures Steps(engine, keyPresent, useGpt, lines)[k]
         == Step(Prompt(Mode(useGpt, lines[..k])), lines[k], Respond(engine, keyPresent, Mode(useGpt, lines[..k]), lines[k]))
    decreases k
  {
    assert lines != [];
    if k == 0 {
      assert lines[..0] == [];
    } else {
      var next := NextMode(useGpt, lines[0]);
      assert !Ends(Respond(engine, keyPresent, useGpt, lines[0]));
      StepAt(engine, keyPresent, next, lines[1..], k - 1);
      assert lines[..k][0] == lines[0] && lines[..k][1..] == lines[1..][..k - 1];
    }
  }

  /**
    Every line is answered until an exception other than ValueError gets past the per-request handler;
    that one is the last step and the rest of the input is never read.
   */
  lemma {:induction false} StepsLength(engine: EngineView, keyPresent: bool, useGpt: bool, lines: seq<string>)
    ensures |Steps(engine, keyPresent, useGpt, lines)| <= |lines|
    ensures |lines| > 0 ==> |Steps(engine, keyPresent, useGpt, lines)| > 0
    ensures var t := Steps(engine, keyPresent, useGpt, lines);
      |t| < |lines| ==> Ends(t[|t| - 1].action)
    ensures var t := Steps(engine, keyPresent, useGpt, lines);
      forall k :: 0 <= k < |t| - 1 ==> !Ends(t[k].action)
    decreases |lines|
  {
    if lines != [] {
      var a := Respond(engine, keyPresent, useGpt, lines[0]);
      if !Ends(a) {
        var tail := Steps(engine, keyPresent, NextMode(useGpt, lines[0]), lines[1..]);
        var t := Steps(engine, keyPresent, useGpt, lines);
        assert t == [Step(Prompt(useGpt), lines[0], a)] + tail;
        StepsLength(engine, keyPresent, NextMode(useGpt, lines[0]), lines[1..]);
        forall k | 0 <= k < |t| - 1
          ensures !Ends(t[k].action)
        {
          if k > 0 {
            assert t[k] == tail[k - 1];
          }
        }
      }
    }
  }

  /** A swallowed ValueError keeps the mode, and the loop goes on to the next line. */
  lemma SwallowContinues(engine: EngineView, keyPresent: bool, useGpt: bool, lines: seq<string>, k: nat)
    requires k + 1 < |lines|
    requires k < |Steps(engine, keyPresent, useGpt, lines)|
    requires Steps(engine, keyPresent, useGpt, lines)[k].action.Search?
    requires Steps(engine, keyPresent, useGpt, lines)[k].action.outcome == Swallowed
    ensures k + 1 < |Steps(engine, keyPresent, useGpt, lines)|
    ensures Steps(engine, keyPresent, useGpt, lines)[k + 1].line == lines[k + 1]
    ensures Mode(useGpt, lines[..k + 1]) == Mode(useGpt, lines[..k])
    ensures Steps(engine, keyPresent, useGpt, lines)[k + 1].prompt == Steps(engine, keyPresent, useGpt, lines)[k].prompt
  {
    var t := Steps(engine, keyPresent, useGpt, lines);
    StepsLength(engine, keyPresent, useGpt, lines);
    StepAt(engine, keyPresent, useGpt, lines, k);
    StepAt(engine, keyPresent, useGpt, lines, k + 1);
    assert lines[..k + 1] == lines[..k] + [lines[k]];
    ModeAppend(useGpt, lines[..k], [lines[k]]);
    assert [lines[k]][1..] == [];
  }

  /** A session starts in plain mode: the first prompt is the plain one. */
  lemma FirstPromptPlain(engine: EngineView, keyPresent: bool, lines: seq<string>)
    requires lines != []
    ensures |Steps(engine, keyPresent, false, lines)| > 0
    ensures Steps(engine, keyPresent, false, lines)[0].prompt == ">>> "
  {
  }

  /** Without a key, no request ever reaches the engine in GPT mode. */
  lemma NoKeyNoGptSearch(engine: EngineView, useGpt: bool, lines: seq<string>)
    ensures var t := Steps(engine, false, useGpt, lines);
      forall k :: 0 <= k < |t| && t[k].action.Search? ==> !t[k].action.useGpt
  {
    var t := Steps(engine, false, useGpt, lines);
    forall k | 0 <= k < |t| && t[k].action.Search?
      ensures !t[k].action.useGpt
    {
      StepAt(engine, false, useGpt, lines, k);
    }
  }
}
