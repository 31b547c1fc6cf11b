/** The typewriter effect on `.typing-effect` elements (class TerminalTyping
    in script.js). An interval timer appends one more character of the
    element's `data-text` per tick; once the whole text is shown the timer is
    cleared, and a later timeout empties the element and types the text again
    from the start. The timers themselves are not modelled: each tick and
    each restart is one call. */
module Typing {

  /** One UTF-16 code unit: JavaScript's `length` and `charAt` count these. */
  newtype CodeUnit = x: int | 0 <= x < 0x1_0000

  /** The element's text content, the interval's `index` and whether the
      interval is still live. */
  datatype Typer = Typer(content: seq<CodeUnit>, index: nat, running: bool)

  /** What every reachable state satisfies: the element shows the first
      `index` units of the text, and a cleared interval has typed all of it. */
  ghost predicate Consistent(text: seq<CodeUnit>, t: Typer) {
    t.index <= |text| && t.content == text[..t.index] && (!t.running ==> t.index == |text|)
  }

  /** The state when the interval starts: the element has just been emptied. */
  function Started(): (r: Typer)
    ensures forall text :: Consistent(text, r)
    ensures r.content == [] && r.running
  {
    Typer([], 0, true)
  }

  /** One interval tick. */
  function Ticked(text: seq<CodeUnit>, t: Typer): (r: Typer)
    requires t.running
    ensures Consistent(text, t) ==> Consistent(text, r)
    ensures t.index < |text| ==> r.running && r.index == t.index + 1 && r.content == t.content + [text[t.index]]
    ensures t.index >= |text| ==> !r.running && r.content == t.content
  {
    if t.index < |text| then Typer(t.content + [text[t.index]], t.index + 1, true)
    else t.(running := false)
  }

  /** The state `n` ticks later; no tick arrives once the interval is cleared. */
  function Run(text: seq<CodeUnit>, t: Typer, n: nat): (r: Typer)
    ensures Consistent(text, t) ==> Consistent(text, r)
    ensures r.index >= t.index && |r.content| >= |t.content|
    ensures !t.running ==> r == t
    decreases n
  {
    if n == 0 || !t.running then t else Run(text, Ticked(text, t), n - 1)
  }

  lemma {:induction false} RunTyping(text: seq<CodeUnit>, i: nat, n: nat)
    requires i + n <= |text|
    ensures Run(text, Typer(text[..i], i, true), n) == Typer(text[..i + n], i + n, true)
    decreases n
  {
    if n > 0 {
      assert text[..i] + [text[i]] == text[..i + 1];
      RunTyping(text, i + 1, n - 1);
    }
  }

  /** After `n` ticks, the first `n` code units are on screen. */
  lemma RunPrefix(text: seq<CodeUnit>, n: nat)
    requires n <= |text|
    ensures Run(text, Started(), n) == Typer(text[..n], n, true)
  {
    RunTyping(text, 0, n);
  }

  /** One tick after the last unit the interval stops with the whole text
      shown, and further ticks change nothing. */
  lemma RunFinishes(text: seq<CodeUnit>, n: nat)
    requires n > |text|
    ensures Run(text, Started(), n) == Typer(text, |text|, false)
  {
    RunTyping(text, 0, |text|);
    assert text[..|text|] == text;
    RunSplit(text, Started(), |text|, n - |text|);
  }

  lemma {:induction false} RunSplit(text: seq<CodeUnit>, t: Typer, m: nat, n: nat)
    ensures Run(text, t, m + n) == Run(text, Run(text, t, m), n)
    decreases m
  {
    if m > 0 && t.running {
      RunSplit(text, Ticked(text, t), m - 1, n);
    }
  }

  class TypingEffect {
    const text: seq<CodeUnit>
    var content: seq<CodeUnit>
    var index: nat
    var running: bool

    function State(): Typer
      reads this
    {
      Typer(content, index, running)
    }

    ghost predicate Valid()
      reads this
    {
      Consistent(text, State())
    }

    /** Elements whose `data-text` is missing or empty are skipped, so only a
        non-empty text gets a typing state. */
    constructor (text: seq<CodeUnit>)
      requires text != []
      ensures Valid() && this.text == text && State() == Started()
    {
      this.text := text;
      content := [];
      index := 0;
      running := true;
    }

    method Tick()
      requires Valid() && running
      modifies this
      ensures Valid() && State() == Ticked(text, old(State()))
    {
      if index < |text| {
        content := content + [text[index]];
        index := index + 1;
      } else {
        running := false;
      }
    }

    /** The restart timeout: the element is emptied and typing begins again. */
    method Restart()
      requires Valid() && !running
      modifies this
      ensures Valid() && State() == Started()
    {
      content := [];
      index := 0;
      running := true;
    }
  }
}
