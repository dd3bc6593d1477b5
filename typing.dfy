/**
  The looping "typing" animation of the lead paragraph (js/scripts.js, lines 47-85).

  The page keeps three module-level variables -- the list of strings to type, the
  index of the current string and the number of its characters shown -- and the
  text of the `#lead-text-span` element. Two callbacks, one that types and one that
  erases, each do one step and schedule the next callback after a fixed delay.
  Here a step returns the callback it would schedule and the delay, as data.
*/
module Typing {
  import opened Wrappers

  /** The two timer callbacks: `typeNextText` and `eraseText`. */
  datatype Action = Type | Erase

  /** What a step hands to `setTimeout`: the next callback and its delay in milliseconds. */
  datatype Schedule = Schedule(action: Action, delay: nat)

  /** Delay between two typed characters. */
  const TypeDelay: nat := 50
  /** Pause with the whole string shown, before erasing starts. */
  const ReadDelay: nat := 2000
  /** Delay between two erased characters. */
  const EraseDelay: nat := 30
  /** Pause with the span empty, before the next string is typed. */
  const NextTextDelay: nat := 500

  /** The module-level variables `texts`, `textIndex`, `charIndex` and the span's text. */
  datatype TypingState = TypingState(texts: seq<string>, textIndex: nat, charIndex: nat, rendered: string)

  /** The state after one step, and the callback that step scheduled. */
  datatype Outcome = Outcome(state: TypingState, next: Schedule)

  /** The state together with the callback that is pending on the timer. */
  datatype Config = Config(state: TypingState, pending: Action)

  /** The list is not empty and the current index is inside it. */
  predicate InRange(s: TypingState) {
    0 < |s.texts| && s.textIndex < |s.texts|
  }

  /**
    The animation's invariant: the list is not empty, both indices are in range,
    and the span shows exactly the first `charIndex` characters of the current string.
  */
  predicate Valid(s: TypingState) {
    && InRange(s)
    && s.charIndex <= |s.texts[s.textIndex]|
    && s.rendered == s.texts[s.textIndex][..s.charIndex]
  }

  /** The variables right after the start-up loop has collected `texts`, the span still empty. */
  function Start(texts: seq<string>): TypingState {
    TypingState(texts, 0, 0, "")
  }

  /** `text().slice(0, -1)`: the text without its last character ("" stays ""). */
  function DropLast(t: string): (r: string)
    ensures |t| > 0 ==> t == r + [t[|t| - 1]]
    ensures |t| == 0 ==> r == ""
  {
    if |t| == 0 then t else t[..|t| - 1]
  }

  /**
    `typeNextText`: while the current string is not fully shown, append its next
    character and type again after 50 ms; otherwise change nothing and erase after 2000 ms.
    Reading `texts[textIndex].length` needs the index to be in range.
  */
  function TypeStep(s: TypingState): Outcome
    requires s.textIndex < |s.texts|
  {
    var current := s.texts[s.textIndex];
    if s.charIndex < |current| then
      Outcome(s.(rendered := s.rendered + [current[s.charIndex]], charIndex := s.charIndex + 1),
              Schedule(Type, TypeDelay))
    else
      Outcome(s, Schedule(Erase, ReadDelay))
  }

  /**
    `eraseText`: while characters are shown, drop the last one and erase again after
    30 ms; otherwise move to the next string cyclically and type after 500 ms.
    The modulo by `texts.length` needs a non-empty list.
  */
  function EraseStep(s: TypingState): Outcome
    requires 0 < |s.texts|
  {
    if s.charIndex > 0 then
      Outcome(s.(rendered := DropLast(s.rendered), charIndex := s.charIndex - 1),
              Schedule(Erase, EraseDelay))
    else
      Outcome(s.(textIndex := (s.textIndex + 1) % |s.texts|), Schedule(Type, NextTextDelay))
  }

  /** What a type step does in each of its two cases, and that it keeps the invariant. */
  lemma TypeStepEffect(s: TypingState)
    requires s.textIndex < |s.texts|
    ensures var r := TypeStep(s);
      && r.state.texts == s.texts && r.state.textIndex == s.textIndex
      && (s.charIndex < |s.texts[s.textIndex]| ==>
            && r.state.rendered == s.rendered + [s.texts[s.textIndex][s.charIndex]]
            && r.state.charIndex == s.charIndex + 1
            && r.next == Schedule(Type, TypeDelay))
      && (s.charIndex >= |s.texts[s.textIndex]| ==>
            r.state == s && r.next == Schedule(Erase, ReadDelay))
      && (Valid(s) ==> Valid(r.state))
  {
  }

  /** What an erase step does in each of its two cases, and that it keeps the invariant. */
  lemma EraseStepEffect(s: TypingState)
    requires 0 < |s.texts|
    ensures var r := EraseStep(s);
      && r.state.texts == s.texts
      && (s.charIndex > 0 ==>
            && (|s.rendered| > 0 ==> s.rendered == r.state.rendered + [s.rendered[|s.rendered| - 1]])
            && (|s.rendered| == 0 ==> r.state.rendered == "")
            && r.state.charIndex == s.charIndex - 1
            && r.state.textIndex == s.textIndex
            && r.next == Schedule(Erase, EraseDelay))
      && (s.charIndex == 0 ==>
            && r.state.textIndex == (s.textIndex + 1) % |s.texts|
            && r.state.charIndex == 0
            && r.state.rendered == s.rendered
            && (Valid(s) ==> r.state.rendered == "")
            && r.next == Schedule(Type, NextTextDelay))
      && (Valid(s) ==> Valid(r.state))
  {
  }

  /** One firing of the pending callback. */
  function Step(c: Config): (r: Outcome)
    requires InRange(c.state)
    ensures InRange(r.state) && r.state.texts == c.state.texts
  {
    match c.pending
    case Type => TypeStep(c.state)
    case Erase => EraseStep(c.state)
  }

  /** The configuration after the pending callback has fired once. */
  function Next(c: Config): (r: Config)
    requires InRange(c.state)
    ensures InRange(r.state) && r.state.texts == c.state.texts
  {
    var o := Step(c);
    Config(o.state, o.next.action)
  }

  /** The configuration after `n` timer firings. */
  function Run(c: Config, n: nat): (r: Config)
    requires InRange(c.state)
    ensures InRange(r.state) && r.state.texts == c.state.texts
    decreases n
  {
    if n == 0 then c else Run(Next(c), n - 1)
  }

  /** At every observation point the span shows a prefix of the current string:
      every number of firings keeps the invariant. */
  lemma {:induction false} RunKeepsValid(c: Config, n: nat)
    requires Valid(c.state)
    ensures Valid(Run(c, n).state)
    decreases n
  {
    if n > 0 {
      if c.pending == Type { TypeStepEffect(c.state); } else { EraseStepEffect(c.state); }
      RunKeepsValid(Next(c), n - 1);
    }
  }

  /** The string being typed or erased. */
  function Current(s: TypingState): string
    requires s.textIndex < |s.texts|
  {
    s.texts[s.textIndex]
  }

  /** The empty span at the start of the string after the current one. */
  function Advance(s: TypingState): (r: TypingState)
    requires 0 < |s.texts|
  {
    TypingState(s.texts, (s.textIndex + 1) % |s.texts|, 0, "")
  }

  /** Firings in one type-then-erase cycle: every character typed, the read pause,
      every character erased, the move to the next string. */
  function CycleSteps(s: TypingState): nat
    requires s.textIndex < |s.texts|
  {
    2 * |Current(s)| + 2
  }

  /** Firings in `k` consecutive cycles starting at `s`. */
  function RotationSteps(s: TypingState, k: nat): nat
    requires 0 < |s.texts| && s.textIndex < |s.texts|
    decreases k
  {
    if k == 0 then 0 else CycleSteps(s) + RotationSteps(Advance(s), k - 1)
  }

  /** Running `m + n` firings is running `m` and then `n`. */
  lemma {:induction false} RunAdd(c: Config, m: nat, n: nat)
    requires InRange(c.state)
    ensures Run(c, m + n) == Run(Run(c, m), n)
    decreases m
  {
    if m > 0 {
      RunAdd(Next(c), m - 1, n);
    }
  }

  /** While typing, `k` firings show `k` more characters of the current string
      and leave the type callback pending. */
  lemma {:induction false} TypingPhase(c: Config, k: nat)
    requires Valid(c.state) && c.pending == Type
    requires c.state.charIndex + k <= |Current(c.state)|
    ensures Run(c, k) == Config(c.state.(charIndex := c.state.charIndex + k,
                                         rendered := Current(c.state)[..c.state.charIndex + k]), Type)
    decreases k
  {
    if k > 0 {
      TypingPhase(Next(c), k - 1);
    }
  }

  /** While erasing, `k` firings remove the last `k` shown characters
      and leave the erase callback pending. */
  lemma {:induction false} ErasingPhase(c: Config, k: nat)
    requires Valid(c.state) && c.pending == Erase
    requires k <= c.state.charIndex
    ensures Run(c, k) == Config(c.state.(charIndex := c.state.charIndex - k,
                                         rendered := Current(c.state)[..c.state.charIndex - k]), Erase)
    decreases k
  {
    if k > 0 {
      ErasingPhase(Next(c), k - 1);
    }
  }

  /** One firing is the step of the pending callback. */
  lemma RunOne(c: Config)
    requires InRange(c.state)
    ensures Run(c, 1) == Next(c)
  {
  }

  /** Typing the whole current string and then the read pause leaves the string
      fully shown with the erase callback pending. */
  lemma TypeThenRead(c: Config)
    requires Valid(c.state) && c.pending == Type && c.state.charIndex == 0
    ensures Run(c, |Current(c.state)| + 1)
         == Config(c.state.(charIndex := |Current(c.state)|, rendered := Current(c.state)), Erase)
  {
    var len := |Current(c.state)|;
    TypingPhase(c, len);
    RunOne(Run(c, len));
    RunAdd(c, len, 1);
  }

  /** Erasing the whole current string and then the move leaves the span empty at
      the next string with the type callback pending. */
  lemma EraseThenAdvance(c: Config)
    requires Valid(c.state) && c.pending == Erase
    ensures Run(c, c.state.charIndex + 1) == Config(Advance(c.state), Type)
  {
    var len := c.state.charIndex;
    ErasingPhase(c, len);
    RunOne(Run(c, len));
    RunAdd(c, len, 1);
  }

  /** A full type-then-erase cycle from an empty span ends with the span empty, the
      next string current and the type callback pending. */
  lemma FullCycle(c: Config)
    requires Valid(c.state) && c.pending == Type && c.state.charIndex == 0
    ensures Run(c, CycleSteps(c.state)) == Config(Advance(c.state), Type)
  {
    var len := |Current(c.state)|;
    TypeThenRead(c);
    var reading := Run(c, len + 1);
    EraseThenAdvance(reading);
    RunAdd(c, len + 1, len + 1);
  }

  /** A positive multiple of a positive number is at least that number. */
  lemma MulAtLeast(d: int, n: int)
    requires 1 <= d && 0 < n
    ensures d * n >= n
  {
  }

  /** The remainder is determined by any decomposition `x == q * n + r` with `0 <= r < n`. */
  lemma ModUnique(x: int, q: int, r: int, n: int)
    requires 0 < n && 0 <= r < n && x == q * n + r
    ensures x % n == r
  {
    var q', r' := x / n, x % n;
    assert x == q' * n + r';
    assert (q - q') * n == r' - r;
    if q > q' {
      MulAtLeast(q - q', n);
    } else if q < q' {
      MulAtLeast(q' - q, n);
    }
  }

  /** Going once round the list does not change the index. */
  lemma ModPlusLength(k: nat, n: nat)
    requires 0 < n
    ensures (k + n) % n == k % n
  {
    var q, r := k / n, k % n;
    assert k == q * n + r;
    assert k + n == (q + 1) * n + r;
    ModUnique(k + n, q + 1, r, n);
  }

  /** Moving to the next string and then `k` further strings is moving `k + 1`. */
  lemma ModSucc(i: nat, k: nat, n: nat)
    requires i < n
    ensures ((i + 1) % n + k) % n == (i + 1 + k) % n
  {
    if i + 1 == n {
      assert (i + 1) % n == 0 by { ModUnique(n, 1, 0, n); }
      ModPlusLength(k, n);
    } else {
      assert (i + 1) % n == i + 1 by { ModUnique(i + 1, 0, i + 1, n); }
    }
  }

  /** `k` full cycles from an empty span make the string `k` places further on
      (cyclically) current, the span empty and the type callback pending. */
  lemma {:induction false} Rotation(c: Config, k: nat)
    requires Valid(c.state) && c.pending == Type && c.state.charIndex == 0
    ensures Run(c, RotationSteps(c.state, k))
         == Config(c.state.(textIndex := (c.state.textIndex + k) % |c.state.texts|), Type)
    decreases k
  {
    var s := c.state;
    var n := |s.texts|;
    if k == 0 {
      ModUnique(s.textIndex, 0, s.textIndex, n);
    } else {
      var next := Config(Advance(s), Type);
      calc {
        Run(c, RotationSteps(s, k));
        { RunAdd(c, CycleSteps(s), RotationSteps(Advance(s), k - 1)); }
        Run(Run(c, CycleSteps(s)), RotationSteps(Advance(s), k - 1));
        { FullCycle(c); }
        Run(next, RotationSteps(next.state, k - 1));
        { Rotation(next, k - 1); }
        Config(next.state.(textIndex := (next.state.textIndex + (k - 1)) % n), Type);
        { ModSucc(s.textIndex, k - 1, n); }
        Config(s.(textIndex := (s.textIndex + k) % n), Type);
      }
    }
  }

  /** After one cycle per string the animation is back where it started. */
  lemma BackToStart(c: Config)
    requires Valid(c.state) && c.pending == Type && c.state.charIndex == 0
    ensures Run(c, RotationSteps(c.state, |c.state.texts|)) == c
  {
    var n := |c.state.texts|;
    Rotation(c, n);
    ModPlusLength(c.state.textIndex, n);
    ModUnique(c.state.textIndex, 0, c.state.textIndex, n);
  }

  /** The module-level variables and the lead span, updated in place by the callbacks. */
  class TypingAnimation {
    var texts: seq<string>
    var textIndex: nat
    var charIndex: nat
    var rendered: string

    /** The values of the four variables. */
    function State(): TypingState
      reads this
    {
      TypingState(texts, textIndex, charIndex, rendered)
    }

    /** `let texts = []; let textIndex = 0; let charIndex = 0;` with the span empty. */
    constructor ()
      ensures State() == TypingState([], 0, 0, "")
    {
      texts, textIndex, charIndex, rendered := [], 0, 0, "";
    }

    /** The ready handler's loop: push the text of every `#lead-texts-to-type span`,
        in document order. */
    method CollectTexts(spans: seq<string>)
      modifies this
      ensures texts == old(texts) + spans
      ensures textIndex == old(textIndex) && charIndex == old(charIndex) && rendered == old(rendered)
    {
      var i := 0;
      while i < |spans|
        invariant 0 <= i <= |spans|
        invariant texts == old(texts) + spans[..i]
        invariant textIndex == old(textIndex) && charIndex == old(charIndex) && rendered == old(rendered)
      {
        texts := texts + [spans[i]];
        i := i + 1;
      }
    }

    /**
      The document-ready handler: collect the texts, then call `typeNextText` once.
      With no span to read, `texts[0]` is undefined and reading its length throws:
      nothing is scheduled (None) and the animation never starts.
    */
    method OnReady(spans: seq<string>) returns (next: Option<Schedule>)
      requires State() == TypingState([], 0, 0, "")
      modifies this
      ensures texts == spans
      ensures spans == [] <==> next == None
      ensures spans == [] ==> State() == Start([])
      ensures spans != [] ==> Valid(State()) && Outcome(State(), next.value) == TypeStep(Start(spans))
    {
      CollectTexts(spans);
      if |texts| == 0 {
        next := None;
      } else {
        var s := TypeNextText();
        next := Some(s);
      }
    }

    /** `typeNextText`, one firing. */
    method TypeNextText() returns (next: Schedule)
      requires Valid(State())
      modifies this
      ensures Valid(State())
      ensures Outcome(State(), next) == TypeStep(old(State()))
    {
      var current := texts[textIndex];
      if charIndex < |current| {
        rendered := rendered + [current[charIndex]];
        charIndex := charIndex + 1;
        next := Schedule(Type, TypeDelay);
      } else {
        next := Schedule(Erase, ReadDelay);
      }
    }

    /** `eraseText`, one firing. */
    method EraseText() returns (next: Schedule)
      requires Valid(State())
      modifies this
      ensures Valid(State())
      ensures Outcome(State(), next) == EraseStep(old(State()))
    {
      if charIndex > 0 {
        rendered := DropLast(rendered);
        charIndex := charIndex - 1;
        next := Schedule(Erase, EraseDelay);
      } else {
        textIndex := (textIndex + 1) % |texts|;
        next := Schedule(Type, NextTextDelay);
      }
    }
  }
}
