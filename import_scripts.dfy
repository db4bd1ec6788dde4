/**
 * The dependency prefix of a worker program: `importScripts('a','b')` for a
 * non-empty dependency list and nothing for an empty one.
 */
module ImportScripts {
  import opened Types

  const Quote: char := '\''

  /** One dependency as a single-quoted literal, `'${dep}'`, without any escaping. */
  function Quoted(dep: string): string {
    [Quote] + dep + [Quote]
  }

  /** `deps.map(dep => `'${dep}'`)`. */
  function QuoteAll(deps: seq<string>): (items: seq<string>)
    ensures |items| == |deps|
    ensures forall i :: 0 <= i < |deps| ==> items[i] == Quoted(deps[i])
  {
    if deps == [] then [] else [Quoted(deps[0])] + QuoteAll(deps[1..])
  }

  /** `Array.prototype.toString`: the items joined by a bare comma. */
  function JoinComma(items: seq<string>): string
  {
    if |items| == 0 then ""
    else if |items| == 1 then items[0]
    else items[0] + "," + JoinComma(items[1..])
  }

  function ImportScriptsFromDeps(deps: seq<string>): string
  {
    if |deps| == 0 then "" else "importScripts(" + JoinComma(QuoteAll(deps)) + ")"
  }

  predicate QuoteFree(s: string) {
    Quote !in s
  }

  // ---------------------------------------------------------------------------
  // Reading a prefix back: the inverse the builder is checked against.

  /** The characters up to the next quote, and what follows that quote. */
  function ReadItem(s: string): (r: Option<(string, string)>)
    ensures r.Some? ==> |r.value.1| < |s|
  {
    if |s| == 0 then None
    else if s[0] == Quote then Some(("", s[1..]))
    else match ReadItem(s[1..])
      case None => None
      case Some((item, rest)) => Some(([s[0]] + item, rest))
  }

  /** Reads `'d1','d2',...,'dn'` (n >= 1) back into its dependencies. */
  function ParseItems(s: string): Option<seq<string>>
    decreases |s|
  {
    if |s| == 0 || s[0] != Quote then None
    else match ReadItem(s[1..])
      case None => None
      case Some((item, rest)) =>
        if rest == "" then Some([item])
        else if rest[0] != ',' then None
        else match ParseItems(rest[1..])
          case None => None
          case Some(more) => Some([item] + more)
  }

  const Head: string := "importScripts("

  /** Reads a whole prefix back into its dependency list. */
  function ParseImportScripts(s: string): Option<seq<string>>
  {
    if s == "" then Some([])
    else if |s| > |Head| && s[..|Head|] == Head && s[|s| - 1] == ')' then ParseItems(s[|Head|..|s| - 1])
    else None
  }

  lemma {:induction false} ReadItemQuoted(dep: string, rest: string)
    requires QuoteFree(dep)
    ensures ReadItem(dep + [Quote] + rest) == Some((dep, rest))
  {
    if dep == [] {
      assert dep + [Quote] + rest == [Quote] + rest;
    } else {
      assert (dep + [Quote] + rest)[1..] == dep[1..] + [Quote] + rest;
      ReadItemQuoted(dep[1..], rest);
      assert [dep[0]] + dep[1..] == dep;
    }
  }

  /** A single quoted item reads back as itself. */
  lemma ParseItemsSingle(dep: string)
    requires QuoteFree(dep)
    ensures ParseItems(Quoted(dep)) == Some([dep])
  {
    var s := Quoted(dep);
    assert s[0] == Quote;
    assert s[1..] == dep + [Quote] + "";
    ReadItemQuoted(dep, "");
  }

  /** A quoted item followed by a comma reads back as that item in front of what the rest reads as. */
  lemma ParseItemsCons(dep: string, tail: string)
    requires QuoteFree(dep)
    ensures ParseItems(Quoted(dep) + "," + tail)
      == if ParseItems(tail).Some? then Some([dep] + ParseItems(tail).value) else None
  {
    var s := Quoted(dep) + "," + tail;
    assert s[0] == Quote;
    assert s[1..] == dep + [Quote] + ("," + tail);
    ReadItemQuoted(dep, "," + tail);
    assert ("," + tail)[1..] == tail;
  }

  /** The joined items of a list of two or more. */
  lemma JoinCommaCons(deps: seq<string>)
    requires |deps| >= 2
    ensures JoinComma(QuoteAll(deps)) == Quoted(deps[0]) + "," + JoinComma(QuoteAll(deps[1..]))
  {
    assert QuoteAll(deps)[1..] == QuoteAll(deps[1..]);
  }

  lemma {:induction false} ParseJoined(deps: seq<string>)
    requires |deps| >= 1
    requires forall i :: 0 <= i < |deps| ==> QuoteFree(deps[i])
    ensures ParseItems(JoinComma(QuoteAll(deps))) == Some(deps)
  {
    if |deps| == 1 {
      assert JoinComma(QuoteAll(deps)) == Quoted(deps[0]);
      ParseItemsSingle(deps[0]);
      assert deps == [deps[0]];
    } else {
      JoinCommaCons(deps);
      ParseJoined(deps[1..]);
      ParseItemsCons(deps[0], JoinComma(QuoteAll(deps[1..])));
      assert [deps[0]] + deps[1..] == deps;
    }
  }

  /** Quote-free dependency lists are recovered exactly, in order, one item each. */
  lemma ImportScriptsRoundTrip(deps: seq<string>)
    requires forall i :: 0 <= i < |deps| ==> QuoteFree(deps[i])
    ensures ParseImportScripts(ImportScriptsFromDeps(deps)) == Some(deps)
  {
    if |deps| > 0 {
      var body := JoinComma(QuoteAll(deps));
      var s := Head + body + ")";
      assert s[..|Head|] == Head;
      assert s[|Head|..|s| - 1] == body;
      ParseJoined(deps);
    }
  }

  /** The prefix is empty exactly for an empty list; otherwise it is a call `importScripts(...)`. */
  lemma ImportScriptsShape(deps: seq<string>)
    ensures ImportScriptsFromDeps(deps) == "" <==> deps == []
    ensures deps != [] ==> var s := ImportScriptsFromDeps(deps);
      |s| > |Head| && s[..|Head|] == Head && s[|s| - 1] == ')'
  {
    if deps != [] {
      var s := ImportScriptsFromDeps(deps);
      assert s[..|Head|] == Head;
    }
  }

  /** Items are separated by a comma with no space after it. */
  lemma NoSpaceAfterComma(a: string, b: string)
    ensures ImportScriptsFromDeps([a, b]) == "importScripts('" + a + "','" + b + "')"
  {
    var items := QuoteAll([a, b]);
    assert items == [Quoted(a), Quoted(b)];
    assert JoinComma(items) == Quoted(a) + "," + JoinComma(items[1..]);
    assert items[1..] == [Quoted(b)];
    assert JoinComma(items) == Quoted(a) + "," + Quoted(b);
  }

  /** Without escaping, a quote inside a dependency is indistinguishable from a separator. */
  lemma QuoteInDependencyIsAmbiguous()
    ensures ImportScriptsFromDeps(["a','b"]) == ImportScriptsFromDeps(["a", "b"])
  {
    NoSpaceAfterComma("a", "b");
  }
}
