/**
 * The self-healing driver: `runCode` with its code and error histories, the
 * module-name extraction and install-and-retry, the accumulation of a
 * completion stream, and the top-level run / regenerate / test loop.
 *
 * The executor (`exec('node temp.js')`), the installer (`npm install` plus the
 * dynamic `import`) and the language model are oracles: finite scripts of
 * answers held in the session, consumed one answer per call. A script that
 * runs out ends the run; that is the fuel bound of the model.
 */
module SelfHealing {
  import opened Wrappers
  import opened JsText
  import opened Sequences
  import opened ModelSwitch
  import opened HistoryComments

  // ---------------------------------------------------------------------------
  // Module-name extraction: `message.match(/Cannot find package '(.*?)'/)?.[1]`
  // ---------------------------------------------------------------------------

  const PackageText: string := "Cannot find package"
  const PackagePrefix: string := "Cannot find package '"

  /** The characters `.` does not match in a JavaScript regular expression. */
  predicate IsLineTerminator(c: char) {
    c == '\n' || c == '\r' || c == '\U{2028}' || c == '\U{2029}'
  }

  /** A character the lazy group `(.*?)` can take before the closing quote. */
  predicate NameChar(c: char) {
    c != '\'' && !IsLineTerminator(c)
  }

  predicate IsName(s: string) {
    forall k :: 0 <= k < |s| ==> NameChar(s[k])
  }

  /**
   * `(.*?)'` matched at the start of `r`: the text before the first quote,
   * when no line terminator comes before that quote.
   */
  function QuotedName(r: string): (name: Option<string>)
    ensures name.Some? ==> IsName(name.value) && |name.value| < |r|
                           && r[..|name.value|] == name.value && r[|name.value|] == '\''
  {
    if r == [] then None
    else if r[0] == '\'' then Some([])
    else if IsLineTerminator(r[0]) then None
    else
      match QuotedName(r[1..])
      case None => None
      case Some(name) => Some([r[0]] + name)
  }

  /** The pattern matches at the front of `s`: the package prefix, then a quoted name. */
  predicate MatchesAt(s: string) {
    StartsWith(s, PackagePrefix) && QuotedName(s[|PackagePrefix|..]).Some?
  }

  /** The module name of the leftmost match of the pattern in `message`, if any. */
  function ModuleName(message: string): (name: Option<string>)
    ensures name.Some? ==> IsName(name.value) && |name.value| < |message|
    decreases |message|
  {
    if message == [] then None
    else if MatchesAt(message) then QuotedName(message[|PackagePrefix|..])
    else ModuleName(message[1..])
  }

  lemma PrefixHasText(s: string)
    requires StartsWith(s, PackagePrefix)
    ensures StartsWith(s, PackageText)
  {
    assert s[..|PackageText|] == s[..|PackagePrefix|][..|PackageText|];
  }

  /**
   * An extracted name is quote- and terminator-free and occurs in the message
   * between the package prefix and a closing quote; the message then contains
   * the `Cannot find package` text the retry rule tests for.
   */
  lemma {:induction false} ModuleNameSound(message: string)
    ensures ModuleName(message).Some? ==>
              IsName(ModuleName(message).value)
              && Includes(message, PackagePrefix + ModuleName(message).value + "'")
              && Includes(message, PackageText)
    decreases |message|
  {
    if message != [] {
      if StartsWith(message, PackagePrefix) && QuotedName(message[|PackagePrefix|..]).Some? {
        var rest := message[|PackagePrefix|..];
        var name := QuotedName(rest).value;
        var quoted := PackagePrefix + name + "'";
        assert message[..|quoted|] == quoted by {
          assert message[..|PackagePrefix|] == PackagePrefix;
          assert message[|PackagePrefix|..|quoted|] == rest[..|name| + 1];
          assert rest[..|name| + 1] == name + "'" by {
            assert rest[..|name| + 1] == rest[..|name|] + [rest[|name|]];
          }
        }
        PrefixHasText(message);
      } else {
        ModuleNameSound(message[1..]);
      }
    }
  }

  lemma {:induction false} QuotedNameOf(name: string, rest: string)
    requires IsName(name)
    ensures QuotedName(name + "'" + rest) == Some(name)
    decreases |name|
  {
    if name != [] {
      QuotedNameOf(name[1..], rest);
      assert (name + "'" + rest)[1..] == name[1..] + "'" + rest;
      assert [name[0]] + name[1..] == name;
    }
  }

  /** A message that starts with the pattern yields the quoted name, e.g. `left-pad`. */
  lemma ModuleNameOf(name: string, rest: string)
    requires IsName(name)
    ensures ModuleName(PackagePrefix + name + "'" + rest) == Some(name)
  {
    var message := PackagePrefix + name + "'" + rest;
    assert message[..|PackagePrefix|] == PackagePrefix;
    assert message[|PackagePrefix|..] == name + "'" + rest;
    QuotedNameOf(name, rest);
  }

  /**
   * The leftmost match wins: text in front of the pattern, such as the
   * `Command failed: node temp.js` line of an `exec` error, is skipped as
   * long as no match starts inside it.
   */
  lemma {:induction false} ModuleNameLeftmost(pre: string, name: string, rest: string)
    requires IsName(name)
    requires forall k :: 0 <= k < |pre| ==> !MatchesAt((pre + PackagePrefix + name + "'" + rest)[k..])
    ensures ModuleName(pre + PackagePrefix + name + "'" + rest) == Some(name)
    decreases |pre|
  {
    var s := pre + PackagePrefix + name + "'" + rest;
    if pre == [] {
      assert s == PackagePrefix + name + "'" + rest;
      ModuleNameOf(name, rest);
    } else {
      assert s[0..] == s;
      var s' := pre[1..] + PackagePrefix + name + "'" + rest;
      assert s[1..] == s';
      forall k | 0 <= k < |pre[1..]|
        ensures !MatchesAt(s'[k..])
      {
        assert s'[k..] == s[k + 1..];
      }
      ModuleNameLeftmost(pre[1..], name, rest);
    }
  }

  // ---------------------------------------------------------------------------
  // The oracles and the session's observable state
  // ---------------------------------------------------------------------------

  /** `error.code`: the child's exit status as `exec` reports it, or a named code. */
  datatype ErrorCode = ExitStatus(status: int) | Named(name: string)

  /** The error `exec` passes to its callback. */
  datatype ExecError = ExecError(message: string, code: ErrorCode)

  /** One answer of the executor: the program's stdout, or the error. */
  datatype ExecResult = Exited(stdout: string) | Failed(error: ExecError)

  /** Why a `runCode` promise never settles: an exception inside its executor or its `exec` callback. */
  datatype Stuck =
    | HistoryOutOfRange   // `errorHistory[i]` is undefined in the comment loop
    | InstallFailed       // `installMissingModule` rejected inside the callback
    | RetryRejected       // the retried `runCode` rejected inside the callback

  /** How a `runCode` call ends. */
  datatype RunOutcome = Resolved(stdout: string) | Rejected(error: ExecError) | Escaped(cause: Stuck) | OutOfScript

  /** What was thrown at the top level: an executor error, or a completion stream's error. */
  datatype Failure = ExecFailure(error: ExecError) | StreamFailure(fault: Fault)

  /** The `error` argument of `regenerateCode`: an exception, or the harness and output text. */
  datatype ErrorArg = Thrown(failure: Failure) | Report(text: string)

  /** One call to the language model, by the function that made it. */
  datatype Request =
    | GenerateReq(instructions: string)
    | RegenerateReq(instructions: string, code: string, error: ErrorArg)
    | TestReq(instructions: string, code: string)

  /** How a generate function's promise settles. */
  datatype Answer = Answered(text: string) | Threw(fault: Fault) | NoAnswer

  /** Everything the driver observes or changes, as a value. */
  datatype World = World(
    codeHistory: seq<string>,
    errorHistory: seq<string>,
    files: seq<string>,              // every text written to `temp.js`, in order
    execs: seq<ExecResult>,          // the executor's answers still to come
    installs: seq<bool>,             // the installer's answers still to come
    installed: seq<Option<string>>,  // every module name given to the installer
    llm: seq<Network>,               // the network's answers for the model calls still to come
    requests: seq<Request>)          // every model call made, in order

  // ---------------------------------------------------------------------------
  // runCode, as a function of the world
  // ---------------------------------------------------------------------------

  /** How many earlier pairs the comment loop renders: `codeHistory.length - 1`, never negative. */
  function PriorPairs(codes: seq<string>): nat {
    if codes == [] then 0 else |codes| - 1
  }

  /** `codeToRun || code`. */
  function RunTarget(code: string, codeToRun: string): string {
    if codeToRun != [] then codeToRun else code
  }

  /** `installMissingModule(name)`: the installer's next answer, or None when the script is spent. */
  function Install(w: World, name: Option<string>): (r: (Option<bool>, World))
    ensures r.1 == w.(installs := r.1.installs, installed := w.installed + [name])
    ensures w.installs == [] ==> r.0.None? && r.1.installs == []
    ensures w.installs != [] ==> r.0 == Some(w.installs[0]) && r.1.installs == w.installs[1..]
  {
    if w.installs == [] then (None, w.(installed := w.installed + [name]))
    else (Some(w.installs[0]), w.(installs := w.installs[1..], installed := w.installed + [name]))
  }

  /**
   * `runCode(code, skipErrorHistory, codeToRun)` up to `exec`: push the code
   * unless skipped, render the earlier pairs as comments and write them in
   * front of the program.
   */
  function RunCodeSpec(w: World, code: string, skip: bool, codeToRun: string): (r: (RunOutcome, World))
    ensures |r.1.execs| <= |w.execs|
    ensures (r.0.Resolved? || r.0.Rejected?) ==> |r.1.execs| < |w.execs|
    ensures r.1.llm == w.llm && r.1.requests == w.requests
    decreases |w.execs|, 1
  {
    var codes := if skip then w.codeHistory else w.codeHistory + [code];
    var w1 := w.(codeHistory := codes);
    if |w.errorHistory| < PriorPairs(codes) then (Escaped(HistoryOutOfRange), w1)
    else
      var file := Comments(codes, w.errorHistory, PriorPairs(codes)) + RunTarget(code, codeToRun);
      ExitSpec(w1.(files := w.files + [file]), code, skip, codeToRun)
  }

  /**
   * The `exec` callback: on an error push its message unless skipped; on a
   * missing package install it and run again with the same arguments.
   */
  function ExitSpec(w: World, code: string, skip: bool, codeToRun: string): (r: (RunOutcome, World))
    ensures |r.1.execs| <= |w.execs|
    ensures (r.0.Resolved? || r.0.Rejected?) ==> |r.1.execs| < |w.execs|
    ensures r.1.llm == w.llm && r.1.requests == w.requests
    decreases |w.execs|, 0
  {
    if w.execs == [] then (OutOfScript, w)
    else
      var w1 := w.(execs := w.execs[1..]);
      match w.execs[0]
      case Exited(stdout) => (Resolved(stdout), w1)
      case Failed(err) =>
        var w2 := if skip then w1 else w1.(errorHistory := w.errorHistory + [err.message]);
        if !Includes(err.message, PackageText) then (Rejected(err), w2)
        else
          var (ok, w3) := Install(w2, ModuleName(err.message));
          if ok.None? then (OutOfScript, w3)
          else if !ok.value then (Escaped(InstallFailed), w3)
          else
            var retry := RunCodeSpec(w3, code, skip, codeToRun);
            if retry.0.Rejected? then (Escaped(RetryRejected), retry.1) else retry
  }

  // ---------------------------------------------------------------------------
  // What runCode does to the histories and to temp.js
  // ---------------------------------------------------------------------------

  predicate Extends<T(==)>(before: seq<T>, after: seq<T>) {
    |before| <= |after| && after[..|before|] == before
  }

  /** `after` is `before` followed by copies of `code` only. */
  predicate Appended(before: seq<string>, after: seq<string>, code: string) {
    Extends(before, after) && forall j :: |before| <= j < |after| ==> after[j] == code
  }

  /** Every code but the last has its error: the invariant the comment loop needs. */
  predicate Balanced(w: World) {
    |w.errorHistory| <= |w.codeHistory| <= |w.errorHistory| + 1
  }

  lemma ExtendsTrans<T>(a: seq<T>, b: seq<T>, c: seq<T>)
    requires Extends(a, b) && Extends(b, c)
    ensures Extends(a, c)
  {
    assert c[..|a|] == c[..|b|][..|a|];
  }

  lemma AppendedTrans(a: seq<string>, b: seq<string>, c: seq<string>, code: string)
    requires Appended(a, b, code) && Appended(b, c, code)
    ensures Appended(a, c, code)
  {
    ExtendsTrans(a, b, c);
    forall j | |a| <= j < |c|
      ensures c[j] == code
    {
      if j < |b| {
        assert c[j] == c[..|b|][j];
      }
    }
  }

  /**
   * A run that records its history starts from as many codes as errors; one
   * that skips it starts balanced. Either way the comment loop finds every
   * error it reads, so the run never throws there, and it ends balanced. A
   * skipping run leaves both histories alone; a recording run appends only
   * its own code and extends the errors, ending one code
   * ahead when it resolves and even, with the error's message last, when it
   * rejects.
   */
  lemma {:induction false} RunCodeHistories(w: World, code: string, skip: bool, codeToRun: string)
    requires if skip then Balanced(w) else |w.codeHistory| == |w.errorHistory|
    ensures var (out, w') := RunCodeSpec(w, code, skip, codeToRun);
      out != Escaped(HistoryOutOfRange) && Balanced(w')
      && (skip ==> w'.codeHistory == w.codeHistory && w'.errorHistory == w.errorHistory)
      && (!skip ==> Appended(w.codeHistory, w'.codeHistory, code) && |w'.codeHistory| > |w.codeHistory|
                    && Extends(w.errorHistory, w'.errorHistory)
                    && (out.Resolved? ==> |w'.codeHistory| == |w'.errorHistory| + 1)
                    && (out.Rejected? ==> |w'.codeHistory| == |w'.errorHistory|
                                          && w'.errorHistory[|w'.errorHistory| - 1] == out.error.message)
                    && (w.execs != [] && w.execs[0].Failed? ==>
                          |w'.errorHistory| > |w.errorHistory| && w'.errorHistory[|w.errorHistory|] == w.execs[0].error.message)
                    && (w.execs != [] && w.execs[0].Exited? ==>
                          w'.errorHistory == w.errorHistory && w'.codeHistory == w.codeHistory + [code]))
    decreases |w.execs|, 1
  {
    var codes := if skip then w.codeHistory else w.codeHistory + [code];
    assert PriorPairs(codes) <= |w.errorHistory|;
    var file := Comments(codes, w.errorHistory, PriorPairs(codes)) + RunTarget(code, codeToRun);
    var w2 := w.(codeHistory := codes, files := w.files + [file]);
    assert RunCodeSpec(w, code, skip, codeToRun) == ExitSpec(w2, code, skip, codeToRun);
    ExitHistories(w2, code, skip, codeToRun);
    if !skip {
      assert codes[..|w.codeHistory|] == w.codeHistory;
      AppendedTrans(w.codeHistory, codes, ExitSpec(w2, code, skip, codeToRun).1.codeHistory, code);
    }
  }

  /** The `exec` callback keeps the same facts, from the state just after the write. */
  lemma {:induction false} ExitHistories(w: World, code: string, skip: bool, codeToRun: string)
    requires if skip then Balanced(w) else |w.codeHistory| == |w.errorHistory| + 1
    ensures var (out, w') := ExitSpec(w, code, skip, codeToRun);
      out != Escaped(HistoryOutOfRange) && Balanced(w')
      && (skip ==> w'.codeHistory == w.codeHistory && w'.errorHistory == w.errorHistory)
      && (!skip ==> Appended(w.codeHistory, w'.codeHistory, code) && Extends(w.errorHistory, w'.errorHistory)
                    && (out.Resolved? ==> |w'.codeHistory| == |w'.errorHistory| + 1)
                    && (out.Rejected? ==> |w'.codeHistory| == |w'.errorHistory|
                                          && w'.errorHistory[|w'.errorHistory| - 1] == out.error.message)
                    && (w.execs != [] && w.execs[0].Failed? ==>
                          |w'.errorHistory| > |w.errorHistory| && w'.errorHistory[|w.errorHistory|] == w.execs[0].error.message)
                    && (w.execs != [] && w.execs[0].Exited? ==>
                          w'.errorHistory == w.errorHistory && w'.codeHistory == w.codeHistory))
    decreases |w.execs|, 0
  {
    if w.execs != [] && w.execs[0].Failed? {
      var message := w.execs[0].error.message;
      var errors := if skip then w.errorHistory else w.errorHistory + [message];
      assert errors[..|w.errorHistory|] == w.errorHistory;
      if Includes(message, PackageText) {
        var installed := Install(w.(execs := w.execs[1..], errorHistory := errors), ModuleName(message));
        assert w.codeHistory[..|w.codeHistory|] == w.codeHistory;
        if installed.0.Some? && installed.0.value {
          var retry := RunCodeSpec(installed.1, code, skip, codeToRun);
          RunCodeHistories(installed.1, code, skip, codeToRun);
          if !skip {
            ExtendsTrans(w.errorHistory, errors, retry.1.errorHistory);
            assert retry.1.errorHistory[|w.errorHistory|] == retry.1.errorHistory[..|errors|][|w.errorHistory|];
          }
        }
      }
    }
  }

  /**
   * Every attempt of a run that skips the history writes the same `temp.js`:
   * the comments of the unchanged history in front of the program, so an
   * install-and-retry runs exactly the text that failed.
   */
  lemma {:induction false} SkipRunWrites(w: World, code: string, codeToRun: string)
    requires Balanced(w)
    ensures var (out, w') := RunCodeSpec(w, code, true, codeToRun);
      out != Escaped(HistoryOutOfRange) && Extends(w.files, w'.files) && |w'.files| > |w.files|
      && forall j :: |w.files| <= j < |w'.files| ==>
           w'.files[j] == Comments(w.codeHistory, w.errorHistory, PriorPairs(w.codeHistory)) + RunTarget(code, codeToRun)
    decreases |w.execs|, 1
  {
    var file := Comments(w.codeHistory, w.errorHistory, PriorPairs(w.codeHistory)) + RunTarget(code, codeToRun);
    var w2 := w.(files := w.files + [file]);
    assert RunCodeSpec(w, code, true, codeToRun) == ExitSpec(w2, code, true, codeToRun);
    SkipExitWrites(w2, code, codeToRun, file);
    var w' := ExitSpec(w2, code, true, codeToRun).1;
    assert (w.files + [file])[..|w.files|] == w.files;
    ExtendsTrans(w.files, w2.files, w'.files);
    forall j | |w.files| <= j < |w'.files|
      ensures w'.files[j] == file
    {
      if j == |w.files| {
        assert w'.files[j] == w'.files[..|w2.files|][j];
      }
    }
  }

  lemma {:induction false} SkipExitWrites(w: World, code: string, codeToRun: string, file: string)
    requires Balanced(w)
    requires file == Comments(w.codeHistory, w.errorHistory, PriorPairs(w.codeHistory)) + RunTarget(code, codeToRun)
    ensures var (out, w') := ExitSpec(w, code, true, codeToRun);
      out != Escaped(HistoryOutOfRange) && Extends(w.files, w'.files)
      && forall j :: |w.files| <= j < |w'.files| ==> w'.files[j] == file
    decreases |w.execs|, 0
  {
    assert w.files[..|w.files|] == w.files;
    if w.execs != [] && w.execs[0].Failed? && Includes(w.execs[0].error.message, PackageText) {
      var message := w.execs[0].error.message;
      var installed := Install(w.(execs := w.execs[1..], errorHistory := w.errorHistory), ModuleName(message));
      if installed.0.Some? && installed.0.value {
        SkipRunWrites(installed.1, code, codeToRun);
      }
    }
  }

  /**
   * Every attempt of a run, with or without the history, writes a `temp.js`
   * that ends with the program it was asked to run, and the installer's
   * record only grows. A run that gets past the comment loop writes at least
   * once.
   */
  lemma {:induction false} RunWrites(w: World, code: string, skip: bool, codeToRun: string)
    ensures var r := RunCodeSpec(w, code, skip, codeToRun);
      Extends(w.files, r.1.files) && Extends(w.installed, r.1.installed)
      && (forall j :: |w.files| <= j < |r.1.files| ==> EndsWith(r.1.files[j], RunTarget(code, codeToRun)))
      && (r.0 != Escaped(HistoryOutOfRange) ==> |r.1.files| > |w.files|)
    decreases |w.execs|, 1
  {
    var codes := if skip then w.codeHistory else w.codeHistory + [code];
    var r := RunCodeSpec(w, code, skip, codeToRun);
    if PriorPairs(codes) <= |w.errorHistory| {
      var comments := Comments(codes, w.errorHistory, PriorPairs(codes));
      var file := comments + RunTarget(code, codeToRun);
      var w2 := w.(codeHistory := codes, files := w.files + [file]);
      assert r == ExitSpec(w2, code, skip, codeToRun);
      ExitWrites(w2, code, skip, codeToRun);
      EndsWithAppended(comments, RunTarget(code, codeToRun));
      WrittenAfter(w.files, file, r.1.files, RunTarget(code, codeToRun));
    } else {
      assert r.1.files == w.files && r.1.installed == w.installed;
      assert w.files[..|w.files|] == w.files;
      assert w.installed[..|w.installed|] == w.installed;
    }
  }

  lemma EndsWithAppended(front: string, s: string)
    ensures EndsWith(front + s, s)
  {
    assert (front + s)[|front + s| - |s|..] == s;
  }

  /** Files written after `file`, all ending with `target`, follow a `file` that ends with it too. */
  lemma WrittenAfter(files: seq<string>, file: string, later: seq<string>, target: string)
    requires EndsWith(file, target) && Extends(files + [file], later)
    requires forall j :: |files| + 1 <= j < |later| ==> EndsWith(later[j], target)
    ensures Extends(files, later) && |later| > |files|
    ensures forall j :: |files| <= j < |later| ==> EndsWith(later[j], target)
  {
    assert (files + [file])[..|files|] == files;
    ExtendsTrans(files, files + [file], later);
    assert later[|files|] == later[..|files| + 1][|files|];
  }

  /** The `exec` callback writes only through its retry, so the same holds from the state after the write. */
  lemma {:induction false} ExitWrites(w: World, code: string, skip: bool, codeToRun: string)
    ensures var r := ExitSpec(w, code, skip, codeToRun);
      Extends(w.files, r.1.files) && Extends(w.installed, r.1.installed)
      && (forall j :: |w.files| <= j < |r.1.files| ==> EndsWith(r.1.files[j], RunTarget(code, codeToRun)))
    decreases |w.execs|, 0
  {
    assert w.files[..|w.files|] == w.files;
    assert w.installed[..|w.installed|] == w.installed;
    if w.execs != [] && w.execs[0].Failed? && Includes(w.execs[0].error.message, PackageText) {
      var message := w.execs[0].error.message;
      var errors := if skip then w.errorHistory else w.errorHistory + [message];
      var installed := Install(w.(execs := w.execs[1..], errorHistory := errors), ModuleName(message));
      assert installed.1.installed[..|w.installed|] == w.installed;
      if installed.0.Some? && installed.0.value {
        RunWrites(installed.1, code, skip, codeToRun);
        ExtendsTrans(w.installed, installed.1.installed, RunCodeSpec(installed.1, code, skip, codeToRun).1.installed);
      }
    }
  }

  /**
   * The callback on an error that mentions a missing package: it hands the
   * extracted name to the installer; without an answer the script ends, a
   * failed install never settles, and otherwise the run is retried, so the
   * callback never rejects. Whatever the retry writes ends with the same
   * program, with or without the history.
   */
  lemma ExitOnPackageError(w: World, code: string, skip: bool, codeToRun: string)
    requires w.execs != [] && w.execs[0].Failed? && Includes(w.execs[0].error.message, PackageText)
    ensures var r := ExitSpec(w, code, skip, codeToRun);
      !r.0.Rejected?
      && |r.1.installed| > |w.installed| && r.1.installed[|w.installed|] == ModuleName(w.execs[0].error.message)
      && (w.installs == [] ==> r.0 == OutOfScript)
      && (w.installs != [] && !w.installs[0] ==> r.0 == Escaped(InstallFailed))
      && (w.installs != [] && w.installs[0] ==> |r.1.files| > |w.files| || r.0 == Escaped(HistoryOutOfRange))
      && (forall j :: |w.files| <= j < |r.1.files| ==> EndsWith(r.1.files[j], RunTarget(code, codeToRun)))
  {
    var message := w.execs[0].error.message;
    var errors := if skip then w.errorHistory else w.errorHistory + [message];
    var installed := Install(w.(execs := w.execs[1..], errorHistory := errors), ModuleName(message));
    ExitWrites(w, code, skip, codeToRun);
    if installed.0.Some? && installed.0.value {
      var retry := RunCodeSpec(installed.1, code, skip, codeToRun);
      RunWrites(installed.1, code, skip, codeToRun);
      assert retry.1.installed[|w.installed|] == retry.1.installed[..|installed.1.installed|][|w.installed|];
    }
  }

  /**
   * `runCode` rejects only with the error of its first `exec`, and only when
   * that error does not mention a missing package: a rejection of the retry
   * is thrown inside the callback instead.
   */
  lemma RejectionIsFirstError(w: World, code: string, skip: bool, codeToRun: string)
    ensures var (out, w') := RunCodeSpec(w, code, skip, codeToRun);
      out.Rejected? ==> w.execs != [] && w.execs[0] == Failed(out.error)
                        && !Includes(out.error.message, PackageText)
                        && w'.execs == w.execs[1..] && w'.installed == w.installed
  {
  }

  /**
   * An error without the missing-package text is rejected as is, without
   * installing or retrying, once the comment loop has found every error it
   * reads.
   */
  lemma OtherErrorRejects(w: World, code: string, skip: bool, codeToRun: string)
    requires w.execs != [] && w.execs[0].Failed? && !Includes(w.execs[0].error.message, PackageText)
    ensures var codes := if skip then w.codeHistory else w.codeHistory + [code];
      var (out, w') := RunCodeSpec(w, code, skip, codeToRun);
      if |w.errorHistory| < PriorPairs(codes) then out == Escaped(HistoryOutOfRange) && w'.execs == w.execs
      else out == Rejected(w.execs[0].error) && w'.execs == w.execs[1..]
           && w'.installs == w.installs && w'.installed == w.installed
  {
  }

  // ---------------------------------------------------------------------------
  // The model calls, as functions of the world
  // ---------------------------------------------------------------------------

  /** The text `${error}` contributes to a prompt. */
  function ErrorText(arg: ErrorArg): string {
    match arg
    case Thrown(ExecFailure(e)) => e.message
    case Thrown(StreamFailure(f)) => f.message
    case Report(text) => text
  }

  /** The variable part of each prompt: the arguments embedded verbatim under their headings. */
  function Prompt(req: Request): (p: string)
    ensures Includes(p, req.instructions)
    ensures !req.GenerateReq? ==> Includes(p, req.code)
    ensures req.RegenerateReq? ==> Includes(p, ErrorText(req.error))
  {
    match req
    case GenerateReq(instructions) =>
      IncludesEmbedded("[INSTRUCTIONS]: ", instructions, "\n\n\nCODE:\n");
      "[INSTRUCTIONS]: " + instructions + "\n\n\nCODE:\n"
    case RegenerateReq(instructions, code, error) =>
      var withCode := "INSTRUCTIONS:\n" + instructions + "\n\n\nORIGINAL CODE:\n" + code;
      var withError := withCode + "\n\n\nERROR:\n" + ErrorText(error);
      IncludesEmbedded("INSTRUCTIONS:\n", instructions, "\n\n\nORIGINAL CODE:\n");
      IncludesLeft("INSTRUCTIONS:\n" + instructions + "\n\n\nORIGINAL CODE:\n", code, instructions);
      IncludesEmbedded("INSTRUCTIONS:\n" + instructions + "\n\n\nORIGINAL CODE:\n", code, []);
      assert withCode + [] == withCode;
      IncludesLeft(withCode, "\n\n\nERROR:\n", instructions);
      IncludesLeft(withCode, "\n\n\nERROR:\n", code);
      IncludesLeft(withCode + "\n\n\nERROR:\n", ErrorText(error), instructions);
      IncludesLeft(withCode + "\n\n\nERROR:\n", ErrorText(error), code);
      IncludesEmbedded(withCode + "\n\n\nERROR:\n", ErrorText(error), "\n\n\nNEW ERROR FREE CODE:\n");
      IncludesLeft(withError, "\n\n\nNEW ERROR FREE CODE:\n", instructions);
      IncludesLeft(withError, "\n\n\nNEW ERROR FREE CODE:\n", code);
      withError + "\n\n\nNEW ERROR FREE CODE:\n"
    case TestReq(instructions, code) =>
      var head := "INSTRUCTIONS:\n" + instructions + "\n\n\nCODE:\n";
      IncludesEmbedded("INSTRUCTIONS:\n", instructions, "\n\n\nCODE:\n");
      IncludesLeft(head, code, instructions);
      IncludesLeft(head + code, "\n\n\nTEST CODE:\n", instructions);
      IncludesEmbedded(head, code, "\n\n\nTEST CODE:\n");
      head + code + "\n\n\nTEST CODE:\n"
  }

  /** How a generate function settles on a delivered stream: the concatenated fragments, or the error. */
  function AnswerOf(d: Result<Delivery, Fault>): (a: Answer)
    ensures a != NoAnswer
    ensures a.Answered? <==> d.Ok? && d.value.termination.Ended?
  {
    match d
    case Err(fault) => Threw(fault)
    case Ok(Delivery(fragments, Ended)) => Answered(Concat(fragments))
    case Ok(Delivery(_, Broke(fault))) => Threw(fault)
  }

  /** One call of `generateCode`, `regenerateCode` or `generateTestCode`. */
  function Ask(parse: string -> Option<JsonRecord>, w: World, req: Request): (r: (Answer, World))
    ensures r.1 == w.(llm := r.1.llm, requests := w.requests + [req])
    ensures r.0 == NoAnswer <==> w.llm == []
  {
    var w1 := w.(requests := w.requests + [req]);
    if w.llm == [] then (NoAnswer, w1)
    else (AnswerOf(Deliver(parse, w.llm[0])), w1.(llm := w.llm[1..]))
  }

  /** `accumulatedData += chunk` over the chunks in arrival order. */
  method Accumulate(chunks: seq<string>) returns (acc: string)
    ensures acc == Concat(chunks)
  {
    acc := "";
    var i := 0;
    while i < |chunks|
      invariant 0 <= i <= |chunks|
      invariant acc == Concat(chunks[..i])
    {
      FlatMapPrefix((chunk: string) => chunk, chunks, i);
      acc := acc + chunks[i];
      i := i + 1;
    }
    assert chunks[..i] == chunks;
  }

  /** The answer is every fragment, in order: each one sits in it right after those before it. */
  lemma AnswerHoldsFragments(fragments: seq<string>, k: nat)
    requires k < |fragments|
    ensures AnswerOf(Ok(Delivery(fragments, Ended))) == Answered(Concat(fragments))
    ensures OccursAt(Concat(fragments), fragments[k], |Concat(fragments[..k])|)
  {
    ConcatHasChunk(fragments, k);
  }

  // ---------------------------------------------------------------------------
  // The top-level loop, as functions of the world
  // ---------------------------------------------------------------------------

  const ModuleNotFound: string := "ERR_MODULE_NOT_FOUND"

  /** The text whose presence in the test output means a test failed. */
  const FailMarker: string := "Fail"

  /** Why the top-level async function rejects. */
  datatype Crash =
    | LlmFailed(fault: Fault)   // a generate function rejected outside the test loop's `try`
    | NoPackageMatch            // `message.match(...)[1]` on a message without the pattern
    | InstallerRejected         // the local `installMissingModule` rejected

  /** How a run that does not finish stops. */
  datatype Halt =
    | Crashed(crash: Crash)
    | Unsettled(cause: Stuck)   // an awaited `runCode` promise never settles
    | ScriptEnded               // an oracle's script ran out

  /** The end of a run: the tested code, its harness and the passing output, or a halt. */
  datatype Ending = Finished(code: string, harness: string, output: string) | Halted(halt: Halt)

  /** What one pass of the test loop leaves: the code to test next, or the end of the run. */
  datatype Round = Retest(code: string) | Stop(ending: Ending)

  /** A generate call outside any `try`: its answer, or the way the run stops. */
  function HaltOn(answer: Answer): Halt
    requires !answer.Answered?
  {
    if answer.Threw? then Crashed(LlmFailed(answer.fault)) else ScriptEnded
  }

  /** The whole run: generate the first code, then the main loop. */
  function Program(parse: string -> Option<JsonRecord>, w: World, instructions: string): (r: (Ending, World))
    ensures |r.1.execs| <= |w.execs|
  {
    var (answer, w1) := Ask(parse, w, GenerateReq(instructions));
    if answer.Answered? then MainLoop(parse, w1, instructions, answer.text)
    else (Halted(HaltOn(answer)), w1)
  }

  /** One pass of `while (runProgram)` with `codeFixed` still false, and the passes after it. */
  function MainLoop(parse: string -> Option<JsonRecord>, w: World, instructions: string, code: string): (r: (Ending, World))
    ensures |r.1.execs| <= |w.execs|
    decreases |w.execs|, 2
  {
    var (out, w1) := RunCodeSpec(w, code, false, []);
    match out
    case OutOfScript => (Halted(ScriptEnded), w1)
    case Escaped(cause) => (Halted(Unsettled(cause)), w1)
    case Resolved(_) => TestPhase(parse, w1, instructions, code)
    case Rejected(err) =>
      if err.code == Named(ModuleNotFound) then
        match ModuleName(err.message)
        case None => (Halted(Crashed(NoPackageMatch)), w1)
        case Some(name) =>
          var (ok, w2) := Install(w1, Some(name));
          if ok.None? then (Halted(ScriptEnded), w2)
          else if !ok.value then (Halted(Crashed(InstallerRejected)), w2)
          else MainLoop(parse, w2, instructions, code)
      else
        var (answer, w2) := Ask(parse, w1, RegenerateReq(instructions, code, Thrown(ExecFailure(err))));
        if answer.Answered? then MainLoop(parse, w2, instructions, answer.text)
        else (Halted(HaltOn(answer)), w2)
  }

  /** `codeFixed`: ask once for a test harness, then the test loop. */
  function TestPhase(parse: string -> Option<JsonRecord>, w: World, instructions: string, code: string): (r: (Ending, World))
    ensures |r.1.execs| <= |w.execs|
    decreases |w.execs|, 1
  {
    var (answer, w1) := Ask(parse, w, TestReq(instructions, code));
    if answer.Answered? then TestLoop(parse, w1, instructions, code, answer.text)
    else (Halted(HaltOn(answer)), w1)
  }

  /** `while (testErrorOccurred)`: run the code with the harness appended until the output has no `Fail`. */
  function TestLoop(parse: string -> Option<JsonRecord>, w: World, instructions: string, code: string, harness: string): (r: (Ending, World))
    ensures |r.1.execs| <= |w.execs|
    decreases |w.execs|, 0
  {
    var (out, w1) := RunCodeSpec(w, code, true, code + "\n" + harness);
    match out
    case OutOfScript => (Halted(ScriptEnded), w1)
    case Escaped(cause) => (Halted(Unsettled(cause)), w1)
    case Rejected(err) => Recover(parse, w1, instructions, code, harness, ExecFailure(err))
    case Resolved(output) =>
      if !Includes(output, FailMarker) then (Finished(code, harness, output), w1)
      else
        var (answer, w2) := Ask(parse, w1, RegenerateReq(instructions, code, Report(harness + output)));
        match answer
        case Answered(newCode) => TestLoop(parse, w2, instructions, newCode, harness)
        case Threw(fault) => Recover(parse, w2, instructions, code, harness, StreamFailure(fault))
        case NoAnswer => (Halted(ScriptEnded), w2)
  }

  /** The test loop's `catch`: regenerate from the thrown error, then test again. */
  function Recover(parse: string -> Option<JsonRecord>, w: World, instructions: string, code: string, harness: string,
                   failure: Failure): (r: (Ending, World))
    ensures |r.1.execs| <= |w.execs|
    decreases |w.execs|, 1
  {
    var (answer, w1) := Ask(parse, w, RegenerateReq(instructions, code, Thrown(failure)));
    if answer.Answered? then TestLoop(parse, w1, instructions, answer.text, harness)
    else (Halted(HaltOn(answer)), w1)
  }

  // ---------------------------------------------------------------------------
  // What the loops promise
  // ---------------------------------------------------------------------------

  predicate EndsWith(s: string, suffix: string) {
    |suffix| <= |s| && s[|s| - |suffix|..] == suffix
  }

  lemma EndsWithProgram(comments: string, code: string, harness: string)
    ensures EndsWith(comments + RunTarget(code, code + "\n" + harness), code + "\n" + harness)
    ensures EndsWith(comments + RunTarget(code, code + "\n" + harness), "\n" + harness)
  {
    var program := code + "\n" + harness;
    var file := comments + program;
    assert file[|file| - |program|..] == program;
    assert file[|file| - |"\n" + harness|..] == program[|code|..];
    assert program[|code|..] == "\n" + harness;
  }

  /** How many of `requests` ask for a test harness. */
  function TestRequests(requests: seq<Request>): nat {
    if requests == [] then 0
    else TestRequests(requests[..|requests| - 1]) + (if requests[|requests| - 1].TestReq? then 1 else 0)
  }

  lemma TestRequestsSnoc(requests: seq<Request>, req: Request)
    ensures TestRequests(requests + [req]) == TestRequests(requests) + (if req.TestReq? then 1 else 0)
  {
    assert (requests + [req])[..|requests|] == requests;
  }

  /**
   * Between two states of the test loop: the histories are untouched, every
   * new model call is a regeneration for the same instructions, and every
   * new `temp.js` ends with the harness.
   */
  predicate TestedWith(w: World, w': World, instructions: string, harness: string) {
    w'.codeHistory == w.codeHistory && w'.errorHistory == w.errorHistory
    && Extends(w.requests, w'.requests) && TestRequests(w'.requests) == TestRequests(w.requests)
    && (forall j :: |w.requests| <= j < |w'.requests| ==>
          w'.requests[j].RegenerateReq? && w'.requests[j].instructions == instructions)
    && Extends(w.files, w'.files)
    && (forall j :: |w.files| <= j < |w'.files| ==> EndsWith(w'.files[j], "\n" + harness))
  }

  lemma TestedWithTrans(w1: World, w2: World, w3: World, instructions: string, harness: string)
    requires TestedWith(w1, w2, instructions, harness) && TestedWith(w2, w3, instructions, harness)
    ensures TestedWith(w1, w3, instructions, harness)
  {
    ExtendsTrans(w1.requests, w2.requests, w3.requests);
    ExtendsTrans(w1.files, w2.files, w3.files);
    forall j | |w1.requests| <= j < |w2.requests|
      ensures w3.requests[j] == w2.requests[j]
    {
      assert w3.requests[j] == w3.requests[..|w2.requests|][j];
    }
    forall j | |w1.files| <= j < |w2.files|
      ensures w3.files[j] == w2.files[j]
    {
      assert w3.files[j] == w3.files[..|w2.files|][j];
    }
  }

  lemma AskToRegenerate(parse: string -> Option<JsonRecord>, w: World, instructions: string, code: string,
                        error: ErrorArg, harness: string)
    ensures TestedWith(w, Ask(parse, w, RegenerateReq(instructions, code, error)).1, instructions, harness)
  {
    var req := RegenerateReq(instructions, code, error);
    assert (w.requests + [req])[..|w.requests|] == w.requests;
    assert w.files[..|w.files|] == w.files;
    TestRequestsSnoc(w.requests, req);
  }

  /** The run of the code with the harness appended writes only files that end with the harness. */
  lemma TestRunWrites(w: World, code: string, harness: string)
    requires Balanced(w)
    ensures var w' := RunCodeSpec(w, code, true, code + "\n" + harness).1;
      Extends(w.files, w'.files) && |w'.files| > |w.files|
      && (forall j :: |w.files| <= j < |w'.files| ==> EndsWith(w'.files[j], "\n" + harness))
      && EndsWith(w'.files[|w'.files| - 1], code + "\n" + harness)
  {
    var codeToRun := code + "\n" + harness;
    SkipRunWrites(w, code, codeToRun);
    EndsWithProgram(Comments(w.codeHistory, w.errorHistory, PriorPairs(w.codeHistory)), code, harness);
  }

  /** The same run, as the test loop sees it. */
  lemma TestRunFacts(w: World, code: string, harness: string, instructions: string)
    requires Balanced(w)
    ensures var r := RunCodeSpec(w, code, true, code + "\n" + harness);
      r.0 != Escaped(HistoryOutOfRange) && Balanced(r.1) && TestedWith(w, r.1, instructions, harness)
      && |r.1.files| > |w.files| && RanLast(r.1, code, harness)
  {
    var r := RunCodeSpec(w, code, true, code + "\n" + harness);
    RunCodeHistories(w, code, true, code + "\n" + harness);
    TestRunWrites(w, code, harness);
    assert r.1.requests == w.requests;
    assert w.requests[..|w.requests|] == w.requests;
    assert TestRequests(r.1.requests) == TestRequests(w.requests);
  }

  /** The last `temp.js` written ends with `code`, a newline and the harness. */
  predicate RanLast(w: World, code: string, harness: string) {
    |w.files| > 0 && EndsWith(w.files[|w.files| - 1], code + "\n" + harness)
  }

  /**
   * What the test loop promises from `w` on: it never throws in the comment
   * loop, it keeps `TestedWith`, and it finishes only on an output without
   * `Fail`, with the harness it was given, after running the finished code
   * with that harness last.
   */
  predicate TestOutcome(w: World, r: (Ending, World), instructions: string, harness: string) {
    r.0 != Halted(Unsettled(HistoryOutOfRange)) && TestedWith(w, r.1, instructions, harness)
    && (r.0.Finished? ==>
          r.0.harness == harness && !Includes(r.0.output, FailMarker)
          && |r.1.files| > |w.files| && RanLast(r.1, r.0.code, harness))
  }

  lemma TestOutcomeTrans(w: World, w1: World, r: (Ending, World), instructions: string, harness: string)
    requires TestedWith(w, w1, instructions, harness) && TestOutcome(w1, r, instructions, harness)
    ensures TestOutcome(w, r, instructions, harness)
  {
    TestedWithTrans(w, w1, r.1, instructions, harness);
  }

  /** The test loop never touches the histories, asks only for regenerations, and runs only with its harness. */
  lemma {:induction false} TestLoopFacts(parse: string -> Option<JsonRecord>, w: World, instructions: string,
                                         code: string, harness: string)
    requires Balanced(w)
    ensures TestOutcome(w, TestLoop(parse, w, instructions, code, harness), instructions, harness)
    decreases |w.execs|, 0
  {
    var run := RunCodeSpec(w, code, true, code + "\n" + harness);
    var w1 := run.1;
    TestRunFacts(w, code, harness, instructions);
    match run.0
    case Rejected(err) =>
      RecoverFacts(parse, w1, instructions, code, harness, ExecFailure(err));
      TestOutcomeTrans(w, w1, Recover(parse, w1, instructions, code, harness, ExecFailure(err)), instructions, harness);
    case Resolved(output) =>
      if Includes(output, FailMarker) {
        var asked := Ask(parse, w1, RegenerateReq(instructions, code, Report(harness + output)));
        var w2 := asked.1;
        AskToRegenerate(parse, w1, instructions, code, Report(harness + output), harness);
        TestedWithTrans(w, w1, w2, instructions, harness);
        match asked.0
        case Answered(next) =>
          TestLoopFacts(parse, w2, instructions, next, harness);
          TestOutcomeTrans(w, w2, TestLoop(parse, w2, instructions, next, harness), instructions, harness);
        case Threw(fault) =>
          RecoverFacts(parse, w2, instructions, code, harness, StreamFailure(fault));
          TestOutcomeTrans(w, w2, Recover(parse, w2, instructions, code, harness, StreamFailure(fault)), instructions, harness);
        case NoAnswer =>
      }
    case OutOfScript =>
    case Escaped(_) =>
  }

  lemma {:induction false} RecoverFacts(parse: string -> Option<JsonRecord>, w: World, instructions: string,
                                        code: string, harness: string, failure: Failure)
    requires Balanced(w)
    ensures TestOutcome(w, Recover(parse, w, instructions, code, harness, failure), instructions, harness)
    decreases |w.execs|, 1
  {
    var asked := Ask(parse, w, RegenerateReq(instructions, code, Thrown(failure)));
    AskToRegenerate(parse, w, instructions, code, Thrown(failure), harness);
    if asked.0.Answered? {
      TestLoopFacts(parse, asked.1, instructions, asked.0.text, harness);
      TestOutcomeTrans(w, asked.1, TestLoop(parse, asked.1, instructions, asked.0.text, harness), instructions, harness);
    }
  }

  /**
   * What the main loop promises from `w` on: it never throws in the comment
   * loop, it only appends model calls, at most one of them for a harness (and
   * exactly one when it finishes), and it finishes only on an output without
   * `Fail`, after running the finished code with the harness last.
   */
  predicate MainOutcome(w: World, r: (Ending, World)) {
    r.0 != Halted(Unsettled(HistoryOutOfRange)) && Extends(w.requests, r.1.requests)
    && TestRequests(r.1.requests) <= TestRequests(w.requests) + 1
    && (r.0.Finished? ==>
          TestRequests(r.1.requests) == TestRequests(w.requests) + 1
          && !Includes(r.0.output, FailMarker) && RanLast(r.1, r.0.code, r.0.harness))
  }

  lemma MainOutcomeTrans(w: World, w1: World, r: (Ending, World))
    requires Extends(w.requests, w1.requests) && TestRequests(w1.requests) == TestRequests(w.requests)
    requires MainOutcome(w1, r)
    ensures MainOutcome(w, r)
  {
    ExtendsTrans(w.requests, w1.requests, r.1.requests);
  }

  /** The test phase asks for exactly one harness, then keeps the test loop's promises. */
  lemma {:induction false} TestPhaseFacts(parse: string -> Option<JsonRecord>, w: World, instructions: string, code: string)
    requires Balanced(w)
    ensures MainOutcome(w, TestPhase(parse, w, instructions, code))
    ensures TestRequests(TestPhase(parse, w, instructions, code).1.requests) == TestRequests(w.requests) + 1
    decreases |w.execs|, 1
  {
    var req := TestReq(instructions, code);
    var asked := Ask(parse, w, req);
    TestRequestsSnoc(w.requests, req);
    assert (w.requests + [req])[..|w.requests|] == w.requests;
    if asked.0.Answered? {
      var r := TestLoop(parse, asked.1, instructions, code, asked.0.text);
      TestLoopFacts(parse, asked.1, instructions, code, asked.0.text);
      ExtendsTrans(w.requests, asked.1.requests, r.1.requests);
    }
  }

  /**
   * The main loop starts every pass with as many codes as errors, so the
   * whole run never throws in the comment loop; and it keeps the promises of
   * `MainOutcome`.
   */
  lemma {:induction false} MainLoopFacts(parse: string -> Option<JsonRecord>, w: World, instructions: string, code: string)
    requires |w.codeHistory| == |w.errorHistory|
    ensures MainOutcome(w, MainLoop(parse, w, instructions, code))
    decreases |w.execs|, 2
  {
    var run := RunCodeSpec(w, code, false, []);
    var w1 := run.1;
    RunCodeHistories(w, code, false, []);
    assert w.requests[..|w.requests|] == w.requests;
    match run.0
    case Resolved(_) =>
      TestPhaseFacts(parse, w1, instructions, code);
    case Rejected(err) =>
      if err.code == Named(ModuleNotFound) {
        if ModuleName(err.message).Some? {
          var installed := Install(w1, ModuleName(err.message));
          if installed.0.Some? && installed.0.value {
            MainLoopFacts(parse, installed.1, instructions, code);
          }
        }
      } else {
        var req := RegenerateReq(instructions, code, Thrown(ExecFailure(err)));
        var asked := Ask(parse, w1, req);
        TestRequestsSnoc(w1.requests, req);
        assert (w1.requests + [req])[..|w1.requests|] == w1.requests;
        if asked.0.Answered? {
          MainLoopFacts(parse, asked.1, instructions, asked.0.text);
          MainOutcomeTrans(w, asked.1, MainLoop(parse, asked.1, instructions, asked.0.text));
        }
      }
    case OutOfScript =>
    case Escaped(_) =>
  }

  /**
   * `error.code === 'ERR_MODULE_NOT_FOUND'` only ever sees errors without the
   * missing-package text (those are retried inside `runCode`), so the pattern
   * never matches there and the run crashes on `null[1]`: that branch never
   * installs and never reaches its `continue`.
   */
  lemma ModuleNotFoundCrashes(parse: string -> Option<JsonRecord>, w: World, instructions: string, code: string)
    requires RunCodeSpec(w, code, false, []).0.Rejected?
    requires RunCodeSpec(w, code, false, []).0.error.code == Named(ModuleNotFound)
    ensures MainLoop(parse, w, instructions, code) == (Halted(Crashed(NoPackageMatch)), RunCodeSpec(w, code, false, []).1)
  {
    RejectionIsFirstError(w, code, false, []);
    ModuleNameSound(RunCodeSpec(w, code, false, []).0.error.message);
  }

  /**
   * A whole run from empty histories: its first model call generates the
   * code from the instructions, it never throws in the comment loop, asks for
   * at most one harness, and finishes only on an output without `Fail`.
   */
  lemma ProgramFacts(parse: string -> Option<JsonRecord>, w: World, instructions: string)
    requires |w.codeHistory| == |w.errorHistory|
    ensures var r := Program(parse, w, instructions);
      MainOutcome(w, r) && |r.1.requests| > |w.requests| && r.1.requests[|w.requests|] == GenerateReq(instructions)
  {
    var req := GenerateReq(instructions);
    var asked := Ask(parse, w, req);
    TestRequestsSnoc(w.requests, req);
    assert (w.requests + [req])[..|w.requests|] == w.requests;
    if asked.0.Answered? {
      var r := MainLoop(parse, asked.1, instructions, asked.0.text);
      MainLoopFacts(parse, asked.1, instructions, asked.0.text);
      MainOutcomeTrans(w, asked.1, r);
      assert r.1.requests[|w.requests|] == r.1.requests[..|asked.1.requests|][|w.requests|];
    }
  }

  // ---------------------------------------------------------------------------
  // Which code is tested: every regeneration replaces the code
  // ---------------------------------------------------------------------------

  /** `rest` is what is left of the script `llm` after model calls taken from its front. */
  predicate Consumes(llm: seq<Network>, rest: seq<Network>) {
    |rest| <= |llm| && llm[|llm| - |rest|..] == rest
  }

  /**
   * A finished test loop that made no model call returns the code it started
   * from; one that made calls returns the text the last of them answered, so
   * each regeneration replaced the code and was what ran next.
   */
  predicate FinishesWith(parse: string -> Option<JsonRecord>, llm: seq<Network>, r: (Ending, World), start: string) {
    r.0.Finished? ==>
      Consumes(llm, r.1.llm)
      && if |r.1.llm| == |llm| then r.0.code == start
         else AnswerOf(Deliver(parse, llm[|llm| - |r.1.llm| - 1])) == Answered(r.0.code)
  }

  /** One call answered from the front of the script, then a run that finishes as `FinishesWith` says. */
  lemma FinishesWithTail(parse: string -> Option<JsonRecord>, llm: seq<Network>, r: (Ending, World),
                         start: string, next: string)
    requires llm != [] && FinishesWith(parse, llm[1..], r, next)
    requires r.0.Finished? && |r.1.llm| == |llm| - 1 ==> AnswerOf(Deliver(parse, llm[0])) == Answered(next)
    ensures FinishesWith(parse, llm, r, start)
  {
    if r.0.Finished? {
      assert llm[|llm| - |r.1.llm|..] == llm[1..][|llm| - 1 - |r.1.llm|..];
      if |r.1.llm| < |llm| - 1 {
        assert llm[|llm| - |r.1.llm| - 1] == llm[1..][|llm| - 1 - |r.1.llm| - 1];
      }
    }
  }

  /**
   * The test loop finishes with the code it was given or with the last
   * regeneration; the `catch` always regenerates first, so it finishes only
   * with an answer.
   */
  lemma {:induction false} TestLoopRepairs(parse: string -> Option<JsonRecord>, w: World, instructions: string,
                                           code: string, harness: string)
    ensures FinishesWith(parse, w.llm, TestLoop(parse, w, instructions, code, harness), code)
    decreases |w.execs|, 0
  {
    var run := RunCodeSpec(w, code, true, code + "\n" + harness);
    var w1 := run.1;
    match run.0
    case Rejected(err) =>
      RecoverRepairs(parse, w1, instructions, code, harness, ExecFailure(err));
    case Resolved(output) =>
      if Includes(output, FailMarker) {
        var asked := Ask(parse, w1, RegenerateReq(instructions, code, Report(harness + output)));
        var w2 := asked.1;
        match asked.0
        case Answered(next) =>
          TestLoopRepairs(parse, w2, instructions, next, harness);
          FinishesWithTail(parse, w.llm, TestLoop(parse, w2, instructions, next, harness), code, next);
        case Threw(fault) =>
          RecoverRepairs(parse, w2, instructions, code, harness, StreamFailure(fault));
          FinishesWithTail(parse, w.llm, Recover(parse, w2, instructions, code, harness, StreamFailure(fault)), code, code);
        case NoAnswer =>
      } else {
        assert w.llm[|w.llm| - |w1.llm|..] == w.llm;
      }
    case OutOfScript =>
    case Escaped(_) =>
  }

  lemma {:induction false} RecoverRepairs(parse: string -> Option<JsonRecord>, w: World, instructions: string,
                                          code: string, harness: string, failure: Failure)
    ensures var r := Recover(parse, w, instructions, code, harness, failure);
      FinishesWith(parse, w.llm, r, code) && (r.0.Finished? ==> |r.1.llm| < |w.llm|)
    decreases |w.execs|, 1
  {
    var asked := Ask(parse, w, RegenerateReq(instructions, code, Thrown(failure)));
    if asked.0.Answered? {
      var next := asked.0.text;
      TestLoopRepairs(parse, asked.1, instructions, next, harness);
      FinishesWithTail(parse, w.llm, TestLoop(parse, asked.1, instructions, next, harness), code, next);
    }
  }

  /**
   * The test phase's first call answers the harness; the test loop then
   * starts from the code the phase was given, and the histories stay as
   * they were.
   */
  lemma TestPhaseRepairs(parse: string -> Option<JsonRecord>, w: World, instructions: string, code: string)
    requires Balanced(w)
    ensures var r := TestPhase(parse, w, instructions, code);
      r.0.Finished? ==>
        w.llm != [] && AnswerOf(Deliver(parse, w.llm[0])) == Answered(r.0.harness)
        && FinishesWith(parse, w.llm[1..], r, code) && r.1.codeHistory == w.codeHistory
  {
    var asked := Ask(parse, w, TestReq(instructions, code));
    if asked.0.Answered? {
      TestLoopRepairs(parse, asked.1, instructions, code, asked.0.text);
      TestLoopFacts(parse, asked.1, instructions, code, asked.0.text);
    }
  }

  /**
   * A finished run of the main loop: the `h`-th model call answered the
   * harness; the code it tested is the one last pushed onto the code history,
   * which is the start code when the harness was the first call and otherwise
   * the answer of the call just before it; and the test loop finished with
   * that code or with its own last regeneration.
   */
  predicate TestedFrom(parse: string -> Option<JsonRecord>, llm: seq<Network>, r: (Ending, World), code: string, h: int) {
    r.0.Finished? && 0 <= h < |llm| && |r.1.codeHistory| > 0
    && AnswerOf(Deliver(parse, llm[h])) == Answered(r.0.harness)
    && FinishesWith(parse, llm[h + 1..], r, r.1.codeHistory[|r.1.codeHistory| - 1])
    && if h == 0 then r.1.codeHistory[|r.1.codeHistory| - 1] == code
       else AnswerOf(Deliver(parse, llm[h - 1])) == Answered(r.1.codeHistory[|r.1.codeHistory| - 1])
  }

  /** A regeneration answered from the front of the script shifts the harness call by one. */
  lemma TestedFromTail(parse: string -> Option<JsonRecord>, llm: seq<Network>, r: (Ending, World),
                       code: string, next: string, h: int)
    requires llm != [] && AnswerOf(Deliver(parse, llm[0])) == Answered(next)
    requires TestedFrom(parse, llm[1..], r, next, h)
    ensures TestedFrom(parse, llm, r, code, h + 1)
  {
    assert llm[h + 2..] == llm[1..][h + 1..];
  }

  /** The main loop runs each regeneration next and tests the code it last ran. */
  lemma {:induction false} MainLoopRepairs(parse: string -> Option<JsonRecord>, w: World, instructions: string, code: string)
    requires |w.codeHistory| == |w.errorHistory|
    ensures var r := MainLoop(parse, w, instructions, code);
      r.0.Finished? ==> exists h :: TestedFrom(parse, w.llm, r, code, h)
    decreases |w.execs|, 2
  {
    var run := RunCodeSpec(w, code, false, []);
    var w1 := run.1;
    RunCodeHistories(w, code, false, []);
    match run.0
    case Resolved(_) =>
      var r := TestPhase(parse, w1, instructions, code);
      TestPhaseRepairs(parse, w1, instructions, code);
      if r.0.Finished? {
        assert w1.codeHistory[|w1.codeHistory| - 1] == code;
        assert TestedFrom(parse, w.llm, r, code, 0);
      }
    case Rejected(err) =>
      if err.code == Named(ModuleNotFound) {
        if ModuleName(err.message).Some? {
          var installed := Install(w1, ModuleName(err.message));
          if installed.0.Some? && installed.0.value {
            MainLoopRepairs(parse, installed.1, instructions, code);
          }
        }
      } else {
        var asked := Ask(parse, w1, RegenerateReq(instructions, code, Thrown(ExecFailure(err))));
        if asked.0.Answered? {
          var next := asked.0.text;
          var r := MainLoop(parse, asked.1, instructions, next);
          MainLoopRepairs(parse, asked.1, instructions, next);
          if r.0.Finished? {
            var h :| TestedFrom(parse, asked.1.llm, r, next, h);
            TestedFromTail(parse, w.llm, r, code, next, h);
          }
        }
      }
    case OutOfScript =>
    case Escaped(_) =>
  }

  /** A whole run that finishes tested the generated code or a regeneration of it, as `TestedFrom` says. */
  lemma ProgramRepairs(parse: string -> Option<JsonRecord>, w: World, instructions: string)
    requires |w.codeHistory| == |w.errorHistory|
    ensures var r := Program(parse, w, instructions);
      r.0.Finished? ==>
        w.llm != [] && AnswerOf(Deliver(parse, w.llm[0])).Answered?
        && exists h :: TestedFrom(parse, w.llm[1..], r, AnswerOf(Deliver(parse, w.llm[0])).text, h)
  {
    var asked := Ask(parse, w, GenerateReq(instructions));
    if asked.0.Answered? {
      MainLoopRepairs(parse, asked.1, instructions, asked.0.text);
    }
  }

  // ---------------------------------------------------------------------------
  // The driver: module-level state and the functions that update it
  // ---------------------------------------------------------------------------

  class Session {
    var codeHistory: seq<string>
    var errorHistory: seq<string>
    var files: seq<string>
    var execs: seq<ExecResult>
    var installs: seq<bool>
    var installed: seq<Option<string>>
    var llm: seq<Network>
    var requests: seq<Request>
    /** `modelSwitch`, the client every generate function goes through. */
    const client: Client

    function State(): World
      reads this
    {
      World(codeHistory, errorHistory, files, execs, installs, installed, llm, requests)
    }

    /** Empty histories, nothing written yet, and the oracles' scripts. */
    constructor (client: Client, execs: seq<ExecResult>, installs: seq<bool>, llm: seq<Network>)
      ensures State() == World([], [], [], execs, installs, [], llm, [])
      ensures this.client == client
    {
      this.client := client;
      codeHistory, errorHistory, files := [], [], [];
      this.execs, this.installs, installed := execs, installs, [];
      this.llm, requests := llm, [];
    }

    /** `installMissingModule(name)`: consume the installer's next answer. */
    method InstallMissingModule(name: Option<string>) returns (ok: Option<bool>)
      modifies this`installs, this`installed
      ensures (ok, State()) == Install(old(State()), name)
    {
      installed := installed + [name];
      if installs == [] {
        return None;
      }
      ok := Some(installs[0]);
      installs := installs[1..];
    }

    /** `runCode(code, skip, codeToRun)`. */
    method RunCode(code: string, skip: bool, codeToRun: string) returns (outcome: RunOutcome)
      modifies this
      ensures (outcome, State()) == RunCodeSpec(old(State()), code, skip, codeToRun)
      decreases |execs|, 1
    {
      if !skip {
        codeHistory := codeHistory + [code];
      }
      var escaped := WriteProgram(code, codeToRun);
      if escaped {
        return Escaped(HistoryOutOfRange);
      }
      outcome := OnExit(code, skip, codeToRun);
    }

    /**
     * The comment loop of `runCode` and the `writeFileSync` after it; true when
     * `errorHistory[i]` is undefined, which throws inside the promise's executor.
     */
    method WriteProgram(code: string, codeToRun: string) returns (escaped: bool)
      modifies this`files
      ensures escaped <==> |errorHistory| < PriorPairs(codeHistory)
      ensures files == if escaped then old(files)
                       else old(files) + [Comments(codeHistory, errorHistory, PriorPairs(codeHistory)) + RunTarget(code, codeToRun)]
    {
      var comments := "";
      var i := 0;
      while i < |codeHistory| - 1
        invariant 0 <= i <= PriorPairs(codeHistory) && i <= |errorHistory|
        invariant comments == Comments(codeHistory, errorHistory, i)
        invariant files == old(files)
      {
        if i >= |errorHistory| {
          return true;
        }
        AppendAssoc(comments, Block(CodeHeader(i), codeHistory[i]), Block(ErrorHeader(i), errorHistory[i]));
        comments := comments + Block(CodeHeader(i), codeHistory[i]);
        comments := comments + Block(ErrorHeader(i), errorHistory[i]);
        i := i + 1;
      }
      assert i == PriorPairs(codeHistory);
      files := files + [comments + RunTarget(code, codeToRun)];
      return false;
    }

    /** The `exec` callback of `runCode`. */
    method OnExit(code: string, skip: bool, codeToRun: string) returns (outcome: RunOutcome)
      modifies this
      ensures (outcome, State()) == ExitSpec(old(State()), code, skip, codeToRun)
      decreases |execs|, 0
    {
      if execs == [] {
        return OutOfScript;
      }
      var answer := execs[0];
      execs := execs[1..];
      match answer
      case Exited(stdout) =>
        outcome := Resolved(stdout);
      case Failed(err) =>
        if !skip {
          errorHistory := errorHistory + [err.message];
        }
        if !Includes(err.message, PackageText) {
          outcome := Rejected(err);
        } else {
          var ok := InstallMissingModule(ModuleName(err.message));
          if ok.None? {
            outcome := OutOfScript;
          } else if !ok.value {
            outcome := Escaped(InstallFailed);
          } else {
            var retried := RunCode(code, skip, codeToRun);
            outcome := if retried.Rejected? then Escaped(RetryRejected) else retried;
          }
        }
    }

    /** `generateCode`, `regenerateCode` or `generateTestCode`: one streamed completion, accumulated. */
    method Complete(req: Request) returns (answer: Answer)
      modifies this`llm, this`requests, client
      ensures (answer, State()) == Ask(client.parse, old(State()), req)
      ensures old(llm) != [] ==> client.posts == old(client.posts) + Posts(Prompt(req), old(llm)[0])
      ensures old(llm) == [] ==> client.posts == old(client.posts)
    {
      requests := requests + [req];
      if llm == [] {
        return NoAnswer;
      }
      var net := llm[0];
      llm := llm[1..];
      var served := client.GetStreamDataWithFallback(Prompt(req), net);
      match served
      case Err(fault) =>
        answer := Threw(fault);
      case Ok(response) =>
        var stream, _ := client.ProcessStreamResponse(response.body);
        var text := Accumulate(stream.written);
        if stream.ended {
          answer := Answered(text);
        } else {
          answer := Threw(stream.failure.value);
        }
    }
  
    /** The top-level async function: generate, then run and repair until the code runs, then test it. */
    method Run(instructions: string) returns (ending: Ending)
      modifies this, client
      ensures (ending, State()) == Program(client.parse, old(State()), instructions)
    {
      ghost var spec := Program(client.parse, State(), instructions);
      var generated := Complete(GenerateReq(instructions));
      if !generated.Answered? {
        return Halted(HaltOn(generated));
      }
      var code := generated.text;
      var runProgram := true;
      var codeFixed := false;
      ending := Halted(ScriptEnded);
      while runProgram
        invariant runProgram ==> !codeFixed && spec == MainLoop(client.parse, State(), instructions, code)
        invariant !runProgram ==> spec == (ending, State())
        decreases |execs|
      {
        ghost var before := State();
        var out := RunCode(code, false, []);
        ghost var ran := State();
        match out {
          case OutOfScript =>
            return Halted(ScriptEnded);
          case Escaped(cause) =>
            return Halted(Unsettled(cause));
          case Resolved(_) =>
            assert spec == TestPhase(client.parse, ran, instructions, code);
            codeFixed := true;
          case Rejected(err) =>
            if err.code == Named(ModuleNotFound) {
              var name := ModuleName(err.message);
              if name.None? {
                return Halted(Crashed(NoPackageMatch));
              }
              var ok := InstallMissingModule(name);
              assert (ok, State()) == Install(ran, Some(name.value));
              if ok.None? {
                return Halted(ScriptEnded);
              } else if !ok.value {
                return Halted(Crashed(InstallerRejected));
              }
              continue;
            }
            var regenerated := Complete(RegenerateReq(instructions, code, Thrown(ExecFailure(err))));
            if !regenerated.Answered? {
              return Halted(HaltOn(regenerated));
            }
            code := regenerated.text;
        }
        if codeFixed {
          ending := TestCode(instructions, code);
          runProgram := false;
        }
      }
    }

    /** The `if (codeFixed)` block: ask for one harness, then `while (testErrorOccurred)`. */
    method TestCode(instructions: string, fixedCode: string) returns (ending: Ending)
      modifies this, client
      ensures (ending, State()) == TestPhase(client.parse, old(State()), instructions, fixedCode)
    {
      ghost var spec := TestPhase(client.parse, State(), instructions, fixedCode);
      var test := Complete(TestReq(instructions, fixedCode));
      if !test.Answered? {
        return Halted(HaltOn(test));
      }
      var testCode := test.text;
      var code := fixedCode;
      var testErrorOccurred := true;
      ending := Halted(ScriptEnded);
      while testErrorOccurred
        invariant testErrorOccurred ==> spec == TestLoop(client.parse, State(), instructions, code, testCode)
        invariant !testErrorOccurred ==> spec == (ending, State())
        decreases |execs|, testErrorOccurred
      {
        var round := TestRound(instructions, code, testCode);
        match round {
          case Retest(next) =>
            code := next;
          case Stop(last) =>
            ending := last;
            testErrorOccurred := false;
        }
      }
    }

    /**
     * One pass of `while (testErrorOccurred)`: run the code with the harness;
     * on a `Fail` in the output regenerate from the harness and the output; on
     * an exception regenerate from it.
     */
    method TestRound(instructions: string, code: string, testCode: string) returns (round: Round)
      modifies this, client
      ensures round.Retest? ==> |execs| < old(|execs|)
      ensures TestLoop(client.parse, old(State()), instructions, code, testCode)
           == (if round.Retest? then TestLoop(client.parse, State(), instructions, round.code, testCode)
               else (round.ending, State()))
    {
      var testOutput := RunCode(code, true, code + "\n" + testCode);
      var caught: Option<Failure> := None;
      match testOutput {
        case OutOfScript =>
          return Stop(Halted(ScriptEnded));
        case Escaped(cause) =>
          return Stop(Halted(Unsettled(cause)));
        case Rejected(err) =>
          caught := Some(ExecFailure(err));
        case Resolved(output) =>
          if !Includes(output, FailMarker) {
            return Stop(Finished(code, testCode, output));
          }
          var regenerated := Complete(RegenerateReq(instructions, code, Report(testCode + output)));
          match regenerated {
            case Answered(text) =>
              return Retest(text);
            case Threw(fault) =>
              caught := Some(StreamFailure(fault));
            case NoAnswer =>
              return Stop(Halted(ScriptEnded));
          }
      }
      var regenerated := Complete(RegenerateReq(instructions, code, Thrown(caught.value)));
      if !regenerated.Answered? {
        return Stop(Halted(HaltOn(regenerated)));
      }
      round := Retest(regenerated.text);
    }
  }
}
