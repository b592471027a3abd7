/**
  Prompt-variable scanning and keyboard helpers of the chat input.

  `extractVariables` runs the global regular expression `/{{([^}]+)}}/g` over a
  text. Here `PatternAt` says when a slice of the text is a word of that
  pattern, `MatchAt` is the hand-written matcher for it, `Exec` is one call of
  the regular expression's `exec` from `lastIndex`, and `ExtractVariables` is the
  source's loop. `Scan` specifies that loop: leftmost matches, each search
  resuming where the previous match ended.
*/
module Keyboard {
  import opened Optional

  /** One `{{name}}` occurrence: `variable` is the whole match text[from..to),
      `name` the part between the braces. */
  datatype Variable = Variable(from: nat, name: string, to: nat, variable: string)

  // ---------------------------------------------------------------------
  // The pattern {{([^}]+)}}

  /** text[from..to) is a word of {{[^}]+}}: two opening braces, at least one
      character other than '}', two closing braces. */
  ghost predicate PatternAt(text: string, from: nat, to: nat)
  {
    && from + 5 <= to <= |text|
    && text[from] == '{' && text[from + 1] == '{'
    && text[to - 2] == '}' && text[to - 1] == '}'
    && forall k :: from + 2 <= k < to - 2 ==> text[k] != '}'
  }

  ghost predicate MatchStartsAt(text: string, p: nat)
  {
    exists to :: PatternAt(text, p, to)
  }

  /** What an item of the result promises about the text it came from. */
  ghost predicate WellFormed(text: string, v: Variable)
  {
    && PatternAt(text, v.from, v.to)
    && v.variable == text[v.from..v.to]
    && v.to == v.from + |v.variable|
    && v.variable == "{{" + v.name + "}}"
    && |v.name| >= 1
    && forall k :: 0 <= k < |v.name| ==> v.name[k] != '}'
  }

  /** The first position at or after i that holds '}', or the end of the text. */
  function CloseBrace(text: string, i: nat): (k: nat)
    requires i <= |text|
    ensures i <= k <= |text|
    ensures forall m :: i <= m < k ==> text[m] != '}'
    ensures k < |text| ==> text[k] == '}'
    decreases |text| - i
  {
    if i == |text| || text[i] == '}' then i else CloseBrace(text, i + 1)
  }

  /** The match of the pattern that starts at p, if there is one. `[^}]+` is
      greedy and cannot run past a '}', so the match, when it exists, ends two
      characters after the first '}' that follows the opening braces. */
  function MatchAt(text: string, p: nat): (r: Option<Variable>)
    ensures r.Some? <==> MatchStartsAt(text, p)
    ensures r.Some? ==> r.value.from == p && WellFormed(text, r.value)
    ensures r.Some? ==> forall to :: PatternAt(text, p, to) ==> to == r.value.to
  {
    if p + 2 <= |text| && text[p] == '{' && text[p + 1] == '{' then
      var close := CloseBrace(text, p + 2);
      if close > p + 2 && close + 1 < |text| && text[close + 1] == '}' then
        var v := Variable(p, text[p + 2..close], close + 2, text[p..close + 2]);
        assert PatternAt(text, p, v.to);
        assert v.variable == "{{" + v.name + "}}";
        MatchUnique(text, p, close);
        Some(v)
      else
        NoMatchWithoutClose(text, p, close);
        None
    else
      None
  }

  /** A match at p must end right after the first '}' following the braces. */
  lemma MatchEndsAtFirstClose(text: string, p: nat, to: nat)
    requires PatternAt(text, p, to)
    ensures to - 2 == CloseBrace(text, p + 2)
  {
  }

  lemma NoMatchWithoutClose(text: string, p: nat, close: nat)
    requires p + 2 <= |text| && close == CloseBrace(text, p + 2)
    requires !(close > p + 2 && close + 1 < |text| && text[close + 1] == '}')
    ensures !MatchStartsAt(text, p)
  {
    if MatchStartsAt(text, p) {
      var to :| PatternAt(text, p, to);
      MatchEndsAtFirstClose(text, p, to);
    }
  }

  lemma MatchUnique(text: string, p: nat, close: nat)
    requires p + 2 <= |text| && close == CloseBrace(text, p + 2)
    ensures forall to :: PatternAt(text, p, to) ==> to == close + 2
  {
    forall to | PatternAt(text, p, to)
      ensures to == close + 2
    {
      MatchEndsAtFirstClose(text, p, to);
    }
  }

  // ---------------------------------------------------------------------
  // The global scan

  /** The leftmost match starting at or after i: what `exec` finds from `lastIndex == i`. */
  function FirstMatchFrom(text: string, i: nat): (r: Option<Variable>)
    ensures r.Some? ==> i <= r.value.from && WellFormed(text, r.value)
    ensures r.Some? ==> forall p: nat :: i <= p < r.value.from ==> !MatchStartsAt(text, p)
    ensures r.None? ==> forall p: nat :: i <= p ==> !MatchStartsAt(text, p)
    decreases |text| - i
  {
    if i >= |text| then
      assert forall p: nat :: i <= p ==> MatchAt(text, p).None?;
      None
    else
      match MatchAt(text, i)
      case Some(v) => Some(v)
      case None => FirstMatchFrom(text, i + 1)
  }

  /** The matches of the global pattern from position i on: the leftmost match,
      then the scan resumed at its end. */
  function Scan(text: string, i: nat): seq<Variable>
    decreases |text| - i
  {
    match FirstMatchFrom(text, i)
    case None => []
    case Some(v) => [v] + Scan(text, v.to)
  }

  /** Every item of the scan is a well-formed match at or after i. */
  lemma {:induction false} ScanSound(text: string, i: nat)
    ensures forall k :: 0 <= k < |Scan(text, i)| ==> i <= Scan(text, i)[k].from && WellFormed(text, Scan(text, i)[k])
    decreases |text| - i
  {
    match FirstMatchFrom(text, i)
    case None =>
    case Some(v) =>
      var r, rest := Scan(text, i), Scan(text, v.to);
      ScanSound(text, v.to);
      forall k | 0 <= k < |r|
        ensures i <= r[k].from && WellFormed(text, r[k])
      {
        if k > 0 { assert r[k] == rest[k - 1]; }
      }
  }

  /** The items are in text order and never overlap. */
  lemma {:induction false} ScanOrdered(text: string, i: nat)
    ensures forall j, k :: 0 <= j < k < |Scan(text, i)| ==> Scan(text, i)[j].to <= Scan(text, i)[k].from
    decreases |text| - i
  {
    match FirstMatchFrom(text, i)
    case None =>
    case Some(v) =>
      var r, rest := Scan(text, i), Scan(text, v.to);
      ScanSound(text, v.to);
      ScanOrdered(text, v.to);
      forall j, k | 0 <= j < k < |r|
        ensures r[j].to <= r[k].from
      {
        assert r[k] == rest[k - 1];
        if j > 0 { assert r[j] == rest[j - 1]; }
      }
  }

  /** Every position at or after i where the pattern matches lies inside an
      item: a match is either reported or swallowed by an earlier one. */
  lemma {:induction false} ScanComplete(text: string, i: nat, p: nat)
    requires i <= p && MatchStartsAt(text, p)
    ensures exists k :: 0 <= k < |Scan(text, i)| && Scan(text, i)[k].from <= p < Scan(text, i)[k].to
    decreases |text| - i
  {
    match FirstMatchFrom(text, i)
    case None =>
    case Some(v) =>
      var r, rest := Scan(text, i), Scan(text, v.to);
      if p < v.to {
        assert r[0].from <= p < r[0].to;
      } else {
        ScanComplete(text, v.to, p);
        var k :| 0 <= k < |rest| && rest[k].from <= p < rest[k].to;
        assert r[k + 1] == rest[k];
      }
  }

  /** The scan is empty exactly when the pattern matches nowhere from i on. */
  lemma ScanEmpty(text: string, i: nat)
    ensures Scan(text, i) == [] <==> forall p: nat :: i <= p ==> !MatchStartsAt(text, p)
  {
    if FirstMatchFrom(text, i).Some? {
      assert MatchStartsAt(text, FirstMatchFrom(text, i).value.from);
    }
  }

  /** The scan of a whole text gathers the four scan lemmas. */
  lemma WholeScan(text: string, variables: seq<Variable>)
    requires variables == Scan(text, 0)
    ensures forall k :: 0 <= k < |variables| ==> WellFormed(text, variables[k])
    ensures forall j, k :: 0 <= j < k < |variables| ==> variables[j].to <= variables[k].from
    ensures forall p: nat :: MatchStartsAt(text, p) ==>
              exists k :: 0 <= k < |variables| && variables[k].from <= p < variables[k].to
    ensures variables == [] <==> forall p: nat :: !MatchStartsAt(text, p)
  {
    ScanSound(text, 0);
    ScanOrdered(text, 0);
    forall p: nat | MatchStartsAt(text, p)
      ensures exists k :: 0 <= k < |variables| && variables[k].from <= p < variables[k].to
    {
      ScanComplete(text, 0, p);
    }
    ScanEmpty(text, 0);
  }

  /** One call of `exec` on the global pattern with `lastIndex`: it tries each
      start position from `lastIndex` on and stops at the first that matches. */
  method Exec(text: string, lastIndex: nat) returns (m: Option<Variable>)
    ensures m == FirstMatchFrom(text, lastIndex)
  {
    var p := lastIndex;
    while p < |text|
      invariant lastIndex <= p
      invariant FirstMatchFrom(text, p) == FirstMatchFrom(text, lastIndex)
      decreases |text| - p
    {
      var candidate := MatchAt(text, p);
      if candidate.Some? {
        return candidate;
      }
      p := p + 1;
    }
    return None;
  }

  /** Every `{{name}}` occurrence of the text with its offsets, in text order. */
  method ExtractVariables(text: string) returns (variables: seq<Variable>)
    ensures variables == Scan(text, 0)
    ensures forall k :: 0 <= k < |variables| ==> WellFormed(text, variables[k])
    ensures forall j, k :: 0 <= j < k < |variables| ==> variables[j].to <= variables[k].from
    ensures forall p: nat :: MatchStartsAt(text, p) ==>
              exists k :: 0 <= k < |variables| && variables[k].from <= p < variables[k].to
    ensures variables == [] <==> forall p: nat :: !MatchStartsAt(text, p)
  {
    variables := CollectMatches(text);
    WholeScan(text, variables);
  }

  /** The `exec` loop: call `exec` from `lastIndex`, push the match and resume
      at its end, until `exec` finds nothing. */
  method CollectMatches(text: string) returns (variables: seq<Variable>)
    ensures variables == Scan(text, 0)
  {
    var lastIndex := 0;
    variables := [];
    while true
      invariant lastIndex <= |text|
      invariant variables + Scan(text, lastIndex) == Scan(text, 0)
      decreases |text| - lastIndex
    {
      var m := Exec(text, lastIndex);
      if m.None? {
        break;
      }
      assert Scan(text, lastIndex) == [m.value] + Scan(text, m.value.to);
      assert (variables + [m.value]) + Scan(text, m.value.to) == variables + Scan(text, lastIndex);
      variables := variables + [m.value];
      lastIndex := m.value.to;
    }
  }

  // ---------------------------------------------------------------------
  // Navigation between variables

  /** A variable the caret can move to: it ends after the selection start and
      is not already exactly the selection. */
  predicate IsCandidate(v: Variable, selectionStart: int, selectionEnd: int)
  {
    !(selectionStart == v.from && selectionEnd == v.to) && selectionStart < v.to
  }

  /** `Array.prototype.find` with the candidate test: the first candidate in order. */
  function NextVariable(variables: seq<Variable>, selectionStart: int, selectionEnd: int): (r: Option<Variable>)
    ensures r.Some? ==> exists k :: 0 <= k < |variables| && variables[k] == r.value
                          && IsCandidate(variables[k], selectionStart, selectionEnd)
                          && forall j :: 0 <= j < k ==> !IsCandidate(variables[j], selectionStart, selectionEnd)
    ensures r.None? <==> forall k :: 0 <= k < |variables| ==> !IsCandidate(variables[k], selectionStart, selectionEnd)
    decreases |variables|
  {
    if variables == [] then None
    else if IsCandidate(variables[0], selectionStart, selectionEnd) then Some(variables[0])
    else
      var r := NextVariable(variables[1..], selectionStart, selectionEnd);
      assert forall k :: 1 <= k < |variables| ==> variables[k] == variables[1..][k - 1];
      r
  }

  /** With a variable selected, navigation moves to the following variable of
      the scan. */
  lemma SelectedAdvances(text: string, k: nat)
    requires k + 1 < |Scan(text, 0)|
    ensures NextVariable(Scan(text, 0), Scan(text, 0)[k].from, Scan(text, 0)[k].to) == Some(Scan(text, 0)[k + 1])
  {
    var vs := Scan(text, 0);
    ScanSound(text, 0);
    ScanOrdered(text, 0);
    var r := NextVariable(vs, vs[k].from, vs[k].to);
    assert IsCandidate(vs[k + 1], vs[k].from, vs[k].to);
    forall j | 0 <= j <= k
      ensures !IsCandidate(vs[j], vs[k].from, vs[k].to)
    {
      if j < k { assert vs[j].to <= vs[k].from; }
    }
    assert r.Some?;
    var m :| 0 <= m < |vs| && vs[m] == r.value && IsCandidate(vs[m], vs[k].from, vs[k].to)
             && forall j :: 0 <= j < m ==> !IsCandidate(vs[j], vs[k].from, vs[k].to);
    assert m == k + 1;
  }

  /** With the last variable selected there is nowhere to go: navigation does
      not wrap around. */
  lemma LastStays(text: string)
    requires Scan(text, 0) != []
    ensures NextVariable(Scan(text, 0), Scan(text, 0)[|Scan(text, 0)| - 1].from, Scan(text, 0)[|Scan(text, 0)| - 1].to).None?
  {
    var vs := Scan(text, 0);
    var n := |vs| - 1;
    ScanSound(text, 0);
    ScanOrdered(text, 0);
    forall j | 0 <= j < |vs|
      ensures !IsCandidate(vs[j], vs[n].from, vs[n].to)
    {
      if j < n { assert vs[j].to <= vs[n].from; }
    }
  }

  class TextArea {
    var value: string
    var selectionStart: int
    var selectionEnd: int

    constructor (value: string, selectionStart: int, selectionEnd: int)
      ensures this.value == value && this.selectionStart == selectionStart && this.selectionEnd == selectionEnd
    {
      this.value := value;
      this.selectionStart := selectionStart;
      this.selectionEnd := selectionEnd;
    }
  }

  /** A key press: the key, the modifier flags, the element it targets, and
      whether `preventDefault` has been called. */
  class KeyboardEvent {
    const key: string
    const altKey: bool
    const ctrlKey: bool
    const metaKey: bool
    const target: TextArea?
    var defaultPrevented: bool

    constructor (key: string, altKey: bool, ctrlKey: bool, metaKey: bool, target: TextArea?)
      ensures this.key == key && this.altKey == altKey && this.ctrlKey == ctrlKey && this.metaKey == metaKey
      ensures this.target == target && !defaultPrevented
    {
      this.key := key;
      this.altKey := altKey;
      this.ctrlKey := ctrlKey;
      this.metaKey := metaKey;
      this.target := target;
      defaultPrevented := false;
    }

    method PreventDefault()
      modifies this
      ensures defaultPrevented
    {
      defaultPrevented := true;
    }
  }

  /** The command modifier: Command on macOS, Control elsewhere. */
  function IsCommandPressed(e: KeyboardEvent, isMac: bool): (pressed: bool)
    ensures isMac ==> (pressed <==> e.metaKey)
    ensures !isMac ==> (pressed <==> e.ctrlKey)
  {
    if isMac then e.metaKey else e.ctrlKey
  }

  /** Alt+/ asks for the user prompt; the key press is consumed exactly then. */
  method IsUserPromptRequest(e: KeyboardEvent) returns (valid: bool)
    modifies e
    ensures valid <==> e.key == "/" && e.altKey
    ensures e.defaultPrevented == (old(e.defaultPrevented) || valid)
  {
    valid := e.key == "/" && e.altKey;
    if valid {
      e.PreventDefault();
    }
  }

  /** The variable the caret would move to in a text area, if any. */
  function NextFor(textArea: TextArea?): Option<Variable>
    reads textArea
  {
    if textArea == null then None
    else NextVariable(Scan(textArea.value, 0), textArea.selectionStart, textArea.selectionEnd)
  }

  /** Selects the next variable after the caret in the event's text area.
      Succeeds exactly when there is a candidate; the text never changes, and
      the selection changes only on success, to the chosen variable. */
  method NavigateToNextVariable(e: KeyboardEvent) returns (moved: bool)
    modifies e.target
    ensures moved <==> old(NextFor(e.target)).Some?
    ensures e.target != null ==> e.target.value == old(e.target.value)
    ensures e.target != null && moved ==>
              e.target.selectionStart == old(NextFor(e.target)).value.from
              && e.target.selectionEnd == old(NextFor(e.target)).value.to
    ensures e.target != null && !moved ==>
              e.target.selectionStart == old(e.target.selectionStart)
              && e.target.selectionEnd == old(e.target.selectionEnd)
  {
    var textArea := e.target;
    var value := if textArea == null then "" else textArea.value;
    var variables := ExtractVariables(value);
    if variables == [] {
      return false;
    }
    var next := NextVariable(variables, textArea.selectionStart, textArea.selectionEnd);
    if next.None? {
      return false;
    }
    textArea.selectionStart := next.value.from;
    textArea.selectionEnd := next.value.from;
    textArea.selectionStart := next.value.from;
    textArea.selectionEnd := next.value.to;
    return true;
  }

  const DefaultNavigateKey: string := "Tab"

  /** Moves to the next variable when the navigation key is pressed, and
      consumes the key press exactly when the move happened. */
  method HandleVariableNavigation(e: KeyboardEvent, navigateKey: string := DefaultNavigateKey)
    modifies e, e.target
    ensures e.target != null && !(e.key == navigateKey && old(NextFor(e.target)).Some?) ==>
              e.target.selectionStart == old(e.target.selectionStart) && e.target.selectionEnd == old(e.target.selectionEnd)
    ensures e.defaultPrevented == (old(e.defaultPrevented) || (e.key == navigateKey && old(NextFor(e.target)).Some?))
    ensures e.target != null ==> e.target.value == old(e.target.value)
    ensures e.key == navigateKey && e.target != null && old(NextFor(e.target)).Some? ==>
              e.target.selectionStart == old(NextFor(e.target)).value.from
              && e.target.selectionEnd == old(NextFor(e.target)).value.to
  {
    if e.key != navigateKey {
      return;
    }
    var moved := NavigateToNextVariable(e);
    if moved {
      e.PreventDefault();
    }
  }
}
