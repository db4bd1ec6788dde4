/**
 * The source text of the worker programs the blob URLs are made from. The
 * runner's and the user function's own source texts are opaque strings.
 */
module Programs {
  import opened Types
  import opened ImportScripts

  // The literal pieces of the template strings, whitespace included.
  const Lead: string := "\n    "
  const Install: string := ";\n    onmessage=("
  const Open: string := ")({\n      fn: "
  const PolicyKey: string := ",\n      transferable: '"
  const Close: string := "'\n    })\n  "
  const PersistentClose: string := ",\n    })\n  "

  /** The part of every template before the function: imports, then the handler installation. */
  function Preamble(deps: seq<string>, runner: string): string {
    Lead + ImportScriptsFromDeps(deps) + Install + runner + Open
  }

  /** The part after the function: the policy property and the closing of the options object. */
  function PolicyTail(transferable: string): string {
    PolicyKey + transferable + Close
  }

  /** The program of use-react-workers' `createWorkerBlobUrl`. */
  function WorkerProgram(deps: seq<string>, runner: string, fn: string, transferable: string): string {
    Preamble(deps, runner) + fn + PolicyTail(transferable)
  }

  /** The program of useWebWorker's `createWorkerBlobUrl`: the function source is parenthesised. */
  function ParenthesisedWorkerProgram(deps: seq<string>, runner: string, fn: string, transferable: string): string {
    Preamble(deps, runner) + "(" + fn + ")" + PolicyTail(transferable)
  }

  /** The program of `createPersistentBlobUrl`: no transferable property. */
  function PersistentProgram(deps: seq<string>, runner: string, fn: string): string {
    Preamble(deps, runner) + fn + PersistentClose
  }

  predicate IsPrefix(p: string, s: string) {
    |p| <= |s| && s[..|p|] == p
  }

  predicate IsSuffix(t: string, s: string) {
    |t| <= |s| && s[|s| - |t|..] == t
  }

  // ---------------------------------------------------------------------------
  // Reading a program back.

  /** What lies between a known head and a known tail. */
  function Between(text: string, head: string, tail: string): Option<string> {
    if |head| + |tail| <= |text| && IsPrefix(head, text) && IsSuffix(tail, text)
    then Some(text[|head|..|text| - |tail|])
    else None
  }

  /** The function source of a `createWorkerBlobUrl` program with known imports, runner and policy. */
  function FunctionSource(text: string, deps: seq<string>, runner: string, transferable: string): Option<string> {
    Between(text, Preamble(deps, runner), PolicyTail(transferable))
  }

  /** The function source of a persistent program with known imports and runner. */
  function PersistentFunctionSource(text: string, deps: seq<string>, runner: string): Option<string> {
    Between(text, Preamble(deps, runner), PersistentClose)
  }

  /** The characters after the last quote of `s`. */
  function AfterLastQuote(s: string): Option<string>
    decreases |s|
  {
    if s == [] then None
    else if s[|s| - 1] == Quote then Some("")
    else match AfterLastQuote(s[..|s| - 1])
      case None => None
      case Some(t) => Some(t + [s[|s| - 1]])
  }

  /** The policy literal a worker program carries, as the runner inside it reads it. */
  function EmbeddedTransferable(text: string): Option<string> {
    if IsSuffix(Close, text) then AfterLastQuote(text[..|text| - |Close|]) else None
  }

  lemma {:induction false} BetweenRoundTrip(head: string, mid: string, tail: string)
    ensures Between(head + mid + tail, head, tail) == Some(mid)
  {
    var text := head + mid + tail;
    assert text[..|head|] == head;
    assert text[|text| - |tail|..] == tail;
    assert text[|head|..|text| - |tail|] == mid;
  }

  lemma {:induction false} BetweenInverse(text: string, head: string, tail: string, mid: string)
    requires Between(text, head, tail) == Some(mid)
    ensures text == head + mid + tail
  {
    assert text == text[..|head|] + text[|head|..|text| - |tail|] + text[|text| - |tail|..];
  }

  lemma {:induction false} AfterLastQuoteOf(x: string, p: string)
    requires QuoteFree(p)
    ensures AfterLastQuote(x + [Quote] + p) == Some(p)
    decreases |p|
  {
    var s := x + [Quote] + p;
    if p == [] {
      assert s[|s| - 1] == Quote;
    } else {
      var q := p[..|p| - 1];
      assert p[|p| - 1] in p;
      assert s[|s| - 1] == p[|p| - 1] != Quote;
      assert s[..|s| - 1] == x + [Quote] + q;
      assert forall c :: c in q ==> c in p;
      AfterLastQuoteOf(x, q);
      assert q + [p[|p| - 1]] == p;
    }
  }

  /** The function source is recovered from a program, and only that program yields it. */
  lemma WorkerProgramFunctionSource(text: string, deps: seq<string>, runner: string, fn: string, transferable: string)
    ensures FunctionSource(text, deps, runner, transferable) == Some(fn)
        <==> text == WorkerProgram(deps, runner, fn, transferable)
  {
    var head, tail := Preamble(deps, runner), PolicyTail(transferable);
    if text == head + fn + tail {
      BetweenRoundTrip(head, fn, tail);
    }
    if FunctionSource(text, deps, runner, transferable) == Some(fn) {
      BetweenInverse(text, head, tail, fn);
    }
  }

  /** useWebWorker's template is use-react-workers' with the function source wrapped in parentheses. */
  lemma ParenthesisedIsWrapped(deps: seq<string>, runner: string, fn: string, transferable: string)
    ensures ParenthesisedWorkerProgram(deps, runner, fn, transferable) == WorkerProgram(deps, runner, "(" + fn + ")", transferable)
    ensures FunctionSource(ParenthesisedWorkerProgram(deps, runner, fn, transferable), deps, runner, transferable) == Some("(" + fn + ")")
  {
    WorkerProgramFunctionSource(ParenthesisedWorkerProgram(deps, runner, fn, transferable), deps, runner, "(" + fn + ")", transferable);
  }

  /** The text before the policy literal's opening quote. */
  const PolicyKeyStem: string := ",\n      transferable: "

  /** A text ending in a quoted, quote-free literal and `Close` carries that literal. */
  lemma EmbeddedOf(x: string, transferable: string)
    requires QuoteFree(transferable)
    ensures EmbeddedTransferable(x + [Quote] + transferable + Close) == Some(transferable)
  {
    var text := x + [Quote] + transferable + Close;
    assert text[|text| - |Close|..] == Close;
    assert text[..|text| - |Close|] == x + [Quote] + transferable;
    AfterLastQuoteOf(x, transferable);
  }

  /** The runner inside a program reads back exactly the policy literal it was given. */
  lemma WorkerProgramTransferable(deps: seq<string>, runner: string, fn: string, transferable: string)
    requires QuoteFree(transferable)
    ensures EmbeddedTransferable(WorkerProgram(deps, runner, fn, transferable)) == Some(transferable)
    ensures EmbeddedTransferable(ParenthesisedWorkerProgram(deps, runner, fn, transferable)) == Some(transferable)
  {
    assert PolicyKey == PolicyKeyStem + [Quote];
    var x := Preamble(deps, runner) + fn + PolicyKeyStem;
    assert WorkerProgram(deps, runner, fn, transferable) == x + [Quote] + transferable + Close;
    EmbeddedOf(x, transferable);
    var y := Preamble(deps, runner) + "(" + fn + ")" + PolicyKeyStem;
    assert ParenthesisedWorkerProgram(deps, runner, fn, transferable) == y + [Quote] + transferable + Close;
    EmbeddedOf(y, transferable);
  }

  /** The persistent program carries no policy literal; its function source is recovered like the others. */
  lemma PersistentProgramShape(deps: seq<string>, runner: string, fn: string)
    ensures EmbeddedTransferable(PersistentProgram(deps, runner, fn)) == None
    ensures PersistentFunctionSource(PersistentProgram(deps, runner, fn), deps, runner) == Some(fn)
  {
    var text := PersistentProgram(deps, runner, fn);
    assert text[|text| - |PersistentClose|..] == PersistentClose;
    assert text[|text| - |Close|] == ',' != Close[0];
    assert !IsSuffix(Close, text);
    BetweenRoundTrip(Preamble(deps, runner), fn, PersistentClose);
  }

  /** Every template starts with the import prefix, followed at once by the handler installation. */
  lemma ImportsPrecedeHandler(deps: seq<string>, runner: string, fn: string, transferable: string)
    ensures IsPrefix(Lead + ImportScriptsFromDeps(deps) + Install, WorkerProgram(deps, runner, fn, transferable))
    ensures IsPrefix(Lead + ImportScriptsFromDeps(deps) + Install, ParenthesisedWorkerProgram(deps, runner, fn, transferable))
    ensures IsPrefix(Lead + ImportScriptsFromDeps(deps) + Install, PersistentProgram(deps, runner, fn))
  {
    var p := Lead + ImportScriptsFromDeps(deps) + Install;
    PrefixExtends(p, p, runner);
    PrefixExtends(p, p + runner, Open);
    var pre := Preamble(deps, runner);
    PrefixExtends(p, pre, fn);
    PrefixExtends(p, pre + fn, PolicyTail(transferable));
    PrefixExtends(p, pre + fn, PersistentClose);
    PrefixExtends(p, pre, "(");
    PrefixExtends(p, pre + "(", fn);
    PrefixExtends(p, pre + "(" + fn, ")");
    PrefixExtends(p, pre + "(" + fn + ")", PolicyTail(transferable));
  }

  lemma PrefixExtends(p: string, s: string, t: string)
    requires p == s || IsPrefix(p, s)
    ensures IsPrefix(p, s + t)
  {
    assert (s + t)[..|s|] == s;
    assert (s + t)[..|p|] == s[..|p|];
  }

  /** With no dependencies the prefix is empty and the handler installation follows the lead at once. */
  lemma NoDependenciesNoImports(runner: string, fn: string, transferable: string)
    ensures IsPrefix(Lead + ";", WorkerProgram([], runner, fn, transferable))
    ensures IsPrefix(Lead + ";", ParenthesisedWorkerProgram([], runner, fn, transferable))
    ensures IsPrefix(Lead + ";", PersistentProgram([], runner, fn))
  {
    ImportsPrecedeHandler([], runner, fn, transferable);
    assert ImportScriptsFromDeps([]) == "";
    assert (Lead + "" + Install)[..|Lead| + 1] == Lead + ";";
  }

  /** The policy texts a controller can embed are all free of quotes. */
  lemma JsTextQuoteFree(t: Js<TransferableType>)
    ensures QuoteFree(JsText(t))
  {}
}
