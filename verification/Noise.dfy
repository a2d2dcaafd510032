/** Rule tables and the noise filter over tool output (desktop/main.js). */
module Noise {
  import opened Text

  /** A named pattern; what the pattern matches is a parameter of the model. */
  datatype Rule = Rule(name: string, fires: string -> bool)

  /** The name of the first rule `text` trips. */
  function FirstMatch(rules: seq<Rule>, text: string): (r: Option<string>)
    ensures r.Some? <==> exists rule <- rules :: rule.fires(text)
  {
    if rules == [] then None
    else if rules[0].fires(text) then Some(rules[0].name)
    else
      var r := FirstMatch(rules[1..], text);
      assert rules == [rules[0]] + rules[1..];
      r
  }

  /** A content part: none or no text in it, a text, or a value that has no text form at all. */
  datatype Part = NoText | Text(text: string) | Unprintable

  datatype ToolResponse =
    | Plain(text: string)
    | WithOutput(output: string)
    | Content(parts: seq<Part>)
    | Other(json: string)

  /** Joining the parts throws exactly when one of them has no text form. */
  predicate Printable(response: ToolResponse) {
    response.Content? ==> Part.Unprintable !in response.parts
  }

  function PartText(part: Part): string {
    if part.Text? then part.text else ""
  }

  /** The model-visible text of a tool result. */
  function OutputText(response: ToolResponse): string
    requires Printable(response)
  {
    match response
    case Plain(text) => text
    case WithOutput(output) => output
    case Content(parts) =>
      Join(seq(|parts|, i requires 0 <= i < |parts| => PartText(parts[i])), '\n')
    case Other(json) => json
  }

  datatype Trimmed = Trimmed(name: string, kept: string, dropped: nat)

  predicate Noisy(rules: seq<Rule>, line: string) {
    FirstMatch(rules, line).Some?
  }

  function Clean(rules: seq<Rule>, lines: seq<string>): (kept: seq<string>)
    ensures |kept| <= |lines|
  {
    if lines == [] then []
    else
      var n := |lines| - 1;
      Clean(rules, lines[..n]) + if Noisy(rules, lines[n]) then [] else [lines[n]]
  }

  /** Drops the noisy lines; None when the output as a whole trips no rule. */
  function TrimNoise(rules: seq<Rule>, response: ToolResponse): Option<Trimmed>
    requires Printable(response)
  {
    var text := OutputText(response);
    var name := FirstMatch(rules, text);
    if name.None? then None
    else
      var lines := Split(text, '\n');
      var kept := Clean(rules, lines);
      Some(Trimmed(name.value, Join(kept, '\n'), |lines| - |kept|))
  }

  /** What the NOISE patterns are known to satisfy. */
  ghost predicate LineBased(rules: seq<Rule>) {
    && !Noisy(rules, "")
    && forall text :: ShownByALine(rules, text)
  }

  ghost predicate ShownByALine(rules: seq<Rule>, text: string) {
    Noisy(rules, text) ==> exists line <- Split(text, '\n') :: Noisy(rules, line)
  }

  /** `at` lists, in ascending order, exactly the positions of the clean lines, and `kept` reads them off. */
  ghost predicate KeepsExactly(rules: seq<Rule>, lines: seq<string>, kept: seq<string>, at: seq<nat>) {
    && |at| == |kept|
    && (forall k :: 0 <= k < |at| ==> at[k] < |lines| && kept[k] == lines[at[k]])
    && (forall k, l :: 0 <= k < l < |at| ==> at[k] < at[l])
    && (forall i: nat :: i < |lines| ==> (i in at <==> !Noisy(rules, lines[i])))
  }

  lemma {:induction false} CleanKeepsExactly(rules: seq<Rule>, lines: seq<string>) returns (at: seq<nat>)
    ensures KeepsExactly(rules, lines, Clean(rules, lines), at)
  {
    hide Noisy;
    at := [];
    if lines != [] {
      var n := |lines| - 1;
      var front := CleanKeepsExactly(rules, lines[..n]);
      assert forall i :: 0 <= i < n ==> lines[..n][i] == lines[i];
      at := front + if Noisy(rules, lines[n]) then [] else [n];
    }
  }

  lemma {:induction false} CleanDrops(rules: seq<Rule>, lines: seq<string>, line: string)
    requires line in lines && Noisy(rules, line)
    ensures |Clean(rules, lines)| < |lines|
  {
    hide Noisy;
    var n := |lines| - 1;
    if !Noisy(rules, lines[n]) {
      assert lines == lines[..n] + [lines[n]];
      CleanDrops(rules, lines[..n], line);
    }
  }

  /**
   * When the filter fires: the kept text is the original lines with every noisy line removed, in
   * order; at least one line is dropped; and filtering the kept text again finds it clean.
   */
  lemma TrimmingIsExact(rules: seq<Rule>, response: ToolResponse) returns (kept: seq<string>, at: seq<nat>)
    requires LineBased(rules) && Printable(response)
    requires TrimNoise(rules, response).Some?
    ensures KeepsExactly(rules, Split(OutputText(response), '\n'), kept, at)
    ensures
      var t := TrimNoise(rules, response).value;
      && t.kept == Join(kept, '\n')
      && t.dropped + |kept| == |Split(OutputText(response), '\n')|
      && 0 < t.dropped
      && (kept != [] ==> Split(t.kept, '\n') == kept)
      && TrimNoise(rules, Plain(t.kept)).None?
  {
    hide FirstMatch;
    var text := OutputText(response);
    var lines := Split(text, '\n');
    SplitPartsFree(text, '\n');
    kept := Clean(rules, lines);
    at := CleanKeepsExactly(rules, lines);
    assert Noisy(rules, text) && ShownByALine(rules, text);
    var line :| line in lines && Noisy(rules, line);
    CleanDrops(rules, lines, line);
    KeptAreClean(rules, lines);
    if kept != [] {
      SplitAfterJoin(kept, '\n');
    }
    assert ShownByALine(rules, Join(kept, '\n'));
  }

  lemma {:induction false} KeptAreClean(rules: seq<Rule>, lines: seq<string>)
    ensures forall p <- Clean(rules, lines) :: p in lines && !Noisy(rules, p)
  {
    if lines != [] {
      KeptAreClean(rules, lines[..|lines| - 1]);
    }
  }

  /** The output as the model gets to see it. */
  function Passed(rules: seq<Rule>, response: ToolResponse): string
    requires Printable(response)
  {
    var trimmed := TrimNoise(rules, response);
    if trimmed.None? then OutputText(response) else trimmed.value.kept
  }

  /**
   * No noisy line gets through exactly when the text as a whole trips a rule, or no line of it does.
   */
  lemma NoNoiseGetsThrough(rules: seq<Rule>, response: ToolResponse)
    requires Printable(response) && !Noisy(rules, "")
    ensures (forall line <- Split(Passed(rules, response), '\n') :: !Noisy(rules, line)) <==>
      || Noisy(rules, OutputText(response))
      || (forall line <- Split(OutputText(response), '\n') :: !Noisy(rules, line))
  {
    var text := OutputText(response);
    hide FirstMatch, OutputText;
    if Noisy(rules, text) {
      var lines := Split(text, '\n');
      var kept := Clean(rules, lines);
      KeptAreClean(rules, lines);
      SplitPartsFree(text, '\n');
      assert Passed(rules, response) == Join(kept, '\n');
      if kept == [] {
        assert Split("", '\n') == [""];
      } else {
        SplitAfterJoin(kept, '\n');
      }
    }
  }

  /**
   * The input on which it fails: a rule anchored to the start of the text, tripped by a later line
   * alone, fires nowhere, and that line gets through.
   */
  lemma LaterLineAlone(line: string)
    requires line != "" && '\n' !in line
    ensures
      var rules := [Rule("anchored", text => line <= text)];
      && LineBased(rules)
      && TrimNoise(rules, Plain("\n" + line)).None? && Passed(rules, Plain("\n" + line)) == "\n" + line
      && Noisy(rules, Split("\n" + line, '\n')[1])
  {
    var rules := [Rule("anchored", text => line <= text)];
    assert forall text :: Noisy(rules, text) <==> line <= text;
    forall text ensures ShownByALine(rules, text) {
      if Noisy(rules, text) {
        FirstPartKeepsPrefix(line, text);
        assert Noisy(rules, Split(text, '\n')[0]);
      }
    }
    assert ("\n" + line)[1..] == line;
    SplitWithout(line, '\n');
    assert Split("\n" + line, '\n') == ["", line];
  }

  lemma {:induction false} FirstPartKeepsPrefix(prefix: string, text: string)
    requires '\n' !in prefix && prefix <= text
    ensures prefix <= Split(text, '\n')[0]
  {
    if prefix != "" {
      FirstPartKeepsPrefix(prefix[1..], text[1..]);
      assert text[0] == prefix[0];
    }
  }
}
