/** Shared UI helpers of ui.py: the press-feedback timers, colour
    darkening/brightening and greedy word wrapping. */
module Ui {
  import opened Kit

  /** How long a press animates, in seconds. */
  const PressTime: real := 0.15

  /** Per-button countdown timers for the press animation. */
  class PressTracker {
    var timers: seq<real>
    var pressed: seq<bool>

    /** A button is pressed exactly while its timer runs, and no timer is
        negative or longer than one press. */
    ghost predicate Valid() reads this {
      |timers| == |pressed| &&
      forall i :: 0 <= i < |timers| ==>
        0.0 <= timers[i] <= PressTime && (pressed[i] <==> timers[i] > 0.0)
    }

    constructor (count: nat)
      ensures Valid()
      ensures timers == seq(count, _ => 0.0) && pressed == seq(count, _ => false)
    {
      timers := seq(count, _ => 0.0);
      pressed := seq(count, _ => false);
    }

    /** Start the press animation of button `index`. */
    method Trigger(index: nat)
      requires Valid() && index < |timers|
      modifies this
      ensures Valid()
      ensures timers == old(timers)[index := PressTime]
      ensures pressed == old(pressed)[index := true]
    {
      timers := timers[index := PressTime];
      pressed := pressed[index := true];
    }

    /** Count every running timer down by `dt`; a timer that runs out is
        set to zero and its button released. */
    method Update(dt: real)
      requires Valid() && dt >= 0.0
      modifies this
      ensures Valid()
      ensures |timers| == |old(timers)|
      ensures forall i :: 0 <= i < |timers| ==>
        timers[i] == TimerAfter(old(timers)[i], dt)
    {
      var i := 0;
      while i < |timers|
        invariant 0 <= i <= |timers| == |old(timers)| == |pressed|
        invariant forall k :: 0 <= k < i ==> timers[k] == TimerAfter(old(timers)[k], dt)
        invariant forall k :: i <= k < |timers| ==> timers[k] == old(timers)[k] && pressed[k] == old(pressed)[k]
        invariant Valid()
      {
        if timers[i] > 0.0 {
          var t := timers[i] - dt;
          if t <= 0.0 {
            timers := timers[i := 0.0];
            pressed := pressed[i := false];
          } else {
            timers := timers[i := t];
          }
        }
        i := i + 1;
      }
    }

    function IsPressed(index: nat): (r: bool)
      requires Valid() && index < |timers|
      reads this
      ensures r <==> timers[index] > 0.0
    {
      pressed[index]
    }

    /** Scale factor for drawing button `index`: 1.0 at rest, dipping to
        0.94 and back over one press. */
    function GetScale(index: nat): (r: real)
      requires Valid() && index < |timers|
      reads this
      ensures timers[index] == 0.0 ==> r == 1.0
      ensures 0.94 <= r <= 1.0
    {
      var t := timers[index];
      if t <= 0.0 then 1.0
      else
        var progress := 1.0 - t / PressTime;
        if progress < 0.4 then 1.0 - 0.06 * (progress / 0.4)
        else 0.94 + 0.06 * ((progress - 0.4) / 0.6)
    }
  }

  /** One timer after a frame of `dt` seconds: a running timer counts down
      and stops at zero, an idle one is left alone. */
  function TimerAfter(t: real, dt: real): (r: real)
    ensures t > 0.0 && dt >= 0.0 ==> 0.0 <= r <= t
    ensures t > 0.0 && dt >= t ==> r == 0.0
    ensures t <= 0.0 ==> r == t
  {
    if t > 0.0 then (if t - dt <= 0.0 then 0.0 else t - dt) else t
  }

  /** A running timer never grows and never goes below zero; an idle one
      stays idle. */
  lemma TimerAfterBounds(t: real, dt: real)
    requires t >= 0.0 && dt >= 0.0
    ensures 0.0 <= TimerAfter(t, dt) <= t
    ensures t == 0.0 ==> TimerAfter(t, dt) == 0.0
    ensures dt >= t ==> TimerAfter(t, dt) == 0.0
  {
  }

  /** `darken`: each of the first three channels lowered by `amount`,
      never below 0. */
  function Darken(color: seq<int>, amount: int): (r: seq<int>)
    ensures |r| == Min(3, |color|)
    ensures forall i :: 0 <= i < |r| ==> r[i] >= 0 && (amount >= 0 ==> r[i] <= Max(color[i], 0))
    ensures forall i :: 0 <= i < |r| ==> (color[i] >= amount ==> r[i] == color[i] - amount)
    ensures forall i :: 0 <= i < |r| ==> (color[i] < amount ==> r[i] == 0)
  {
    seq(Min(3, |color|), i requires 0 <= i < Min(3, |color|) => Max(0, color[i] - amount))
  }

  /** `brighten`: each of the first three channels raised by `amount`,
      never above 255. */
  function Brighten(color: seq<int>, amount: int): (r: seq<int>)
    ensures |r| == Min(3, |color|)
    ensures forall i :: 0 <= i < |r| ==> r[i] <= 255 && (amount >= 0 ==> r[i] >= Min(color[i], 255))
    ensures forall i :: 0 <= i < |r| ==> (color[i] + amount <= 255 ==> r[i] == color[i] + amount)
    ensures forall i :: 0 <= i < |r| ==> (color[i] + amount > 255 ==> r[i] == 255)
  {
    seq(Min(3, |color|), i requires 0 <= i < Min(3, |color|) => Min(255, color[i] + amount))
  }

  /** Brightening undoes darkening on every channel that darkening did not
      clip, i.e. channels in [amount, 255]. */
  lemma BrightenUndoesDarken(color: seq<int>, amount: int)
    requires amount >= 0 && |color| >= 3
    requires forall i :: 0 <= i < 3 ==> amount <= color[i] <= 255
    ensures Brighten(Darken(color, amount), amount) == color[..3]
  {
  }

  // ---------------------------------------------------------------------
  // Word wrapping
  // ---------------------------------------------------------------------

  /** The characters `str.split()` separates words on: those for which
      `str.isspace()` holds, namely U+0009 to U+000D, U+001C to U+0020,
      U+0085, U+00A0, U+1680, U+2000 to U+200A, U+2028, U+2029, U+202F,
      U+205F and U+3000. */
  predicate IsSpace(c: char) {
    || 0x09 as char <= c <= 0x0D as char
    || 0x1C as char <= c <= 0x20 as char
    || c == 0x85 as char || c == 0xA0 as char || c == 0x1680 as char
    || 0x2000 as char <= c <= 0x200A as char
    || c == 0x2028 as char || c == 0x2029 as char || c == 0x202F as char
    || c == 0x205F as char || c == 0x3000 as char
  }

  /** A word as `split()` produces it: nonempty, no whitespace. */
  ghost predicate IsWord(w: string) {
    w != [] && forall i :: 0 <= i < |w| ==> !IsSpace(w[i])
  }

  /** The leading run of non-whitespace of `s`. */
  function TakeWord(s: string): (r: string)
    ensures |r| <= |s|
    ensures s != [] && !IsSpace(s[0]) ==> r != []
  {
    if s == [] || IsSpace(s[0]) then [] else [s[0]] + TakeWord(s[1..])
  }

  lemma {:induction false} TakeWordIsWord(s: string)
    requires s != [] && !IsSpace(s[0])
    ensures IsWord(TakeWord(s))
    decreases |s|
  {
    var r := TakeWord(s);
    if |s| > 1 && !IsSpace(s[1]) {
      TakeWordIsWord(s[1..]);
      assert r == [s[0]] + TakeWord(s[1..]);
    } else {
      assert TakeWord(s[1..]) == [];
      assert r == [s[0]];
    }
  }

  /** `text.split()`: the maximal runs of non-whitespace, in order. Each
      word takes at least one character, so there are no more words than
      characters, and blank text has none. */
  function Split(s: string): (ws: seq<string>)
    ensures |ws| <= |s|
    ensures (forall i :: 0 <= i < |s| ==> IsSpace(s[i])) ==> ws == []
    decreases |s|
  {
    if s == [] then []
    else if IsSpace(s[0]) then Split(s[1..])
    else
      var w := TakeWord(s);
      [w] + Split(s[|w|..])
  }

  ghost predicate AllWords(ws: seq<string>) {
    forall k :: 0 <= k < |ws| ==> IsWord(ws[k])
  }

  /** Every piece `split()` returns is a word. */
  lemma {:induction false} SplitGivesWords(s: string)
    ensures AllWords(Split(s))
    decreases |s|
  {
    if s == [] {
    } else if IsSpace(s[0]) {
      SplitGivesWords(s[1..]);
    } else {
      var w := TakeWord(s);
      TakeWordIsWord(s);
      SplitGivesWords(s[|w|..]);
      assert Split(s) == [w] + Split(s[|w|..]);
    }
  }

  /** Words joined by single spaces: the lines `wrap_text` builds. */
  function JoinWords(ws: seq<string>): string {
    if ws == [] then "" else if |ws| == 1 then ws[0] else ws[0] + " " + JoinWords(ws[1..])
  }

  lemma {:induction false} JoinWordsSnoc(ws: seq<string>, w: string)
    requires ws != []
    ensures JoinWords(ws + [w]) == JoinWords(ws) + " " + w
  {
    if |ws| > 1 {
      assert (ws + [w])[1..] == ws[1..] + [w];
      JoinWordsSnoc(ws[1..], w);
    } else {
      assert ws + [w] == [ws[0], w];
    }
  }

  lemma {:induction false} TakeWordOfJoin(w: string, rest: string)
    requires IsWord(w)
    requires rest == [] || IsSpace(rest[0])
    ensures TakeWord(w + rest) == w
    decreases |w|
  {
    if |w| > 1 {
      assert (w + rest)[1..] == w[1..] + rest;
      TakeWordOfJoin(w[1..], rest);
    } else {
      assert (w + rest)[1..] == rest;
    }
  }

  /** Splitting a line made by joining words gives the words back. */
  lemma {:induction false} SplitJoin(ws: seq<string>)
    requires AllWords(ws)
    ensures Split(JoinWords(ws)) == ws
    decreases |ws|
  {
    if ws == [] {
    } else if |ws| == 1 {
      var w := ws[0];
      assert IsWord(w) && JoinWords(ws) == w + "";
      TakeWordOfJoin(w, "");
      SplitWordThen(w, "");
    } else {
      var w := ws[0];
      var tail := JoinWords(ws[1..]);
      assert IsWord(w) && JoinWords(ws) == w + (" " + tail);
      TakeWordOfJoin(w, " " + tail);
      SplitWordThen(w, " " + tail);
      assert AllWords(ws[1..]);
      SplitJoin(ws[1..]);
      SplitSpaceLed(tail);
      assert ws == [w] + ws[1..];
    }
  }

  /** A leading space adds no word. */
  lemma SplitSpaceLed(t: string)
    ensures Split(" " + t) == Split(t)
  {
    assert (" " + t)[1..] == t;
  }

  /** Splitting a word followed by whitespace-led text. */
  lemma SplitWordThen(w: string, rest: string)
    requires IsWord(w) && TakeWord(w + rest) == w
    ensures Split(w + rest) == [w] + Split(rest)
  {
    assert (w + rest)[0] == w[0];
    assert (w + rest)[|w|..] == rest;
  }

  /** The words of a list of lines, in order. */
  function WordsOf(lines: seq<string>): seq<string> {
    if lines == [] then [] else Split(lines[0]) + WordsOf(lines[1..])
  }

  lemma {:induction false} WordsOfSnoc(lines: seq<string>, l: string)
    ensures WordsOf(lines + [l]) == WordsOf(lines) + Split(l)
  {
    if lines != [] {
      assert (lines + [l])[1..] == lines[1..] + [l];
      WordsOfSnoc(lines[1..], l);
    }
  }

  /** A finished line: it has words, and it fits or is one over-long word. */
  ghost predicate LineOk(l: string, width: string -> int, maxWidth: int) {
    Split(l) != [] && (width(l) <= maxWidth || |Split(l)| == 1)
  }

  ghost predicate LinesOk(lines: seq<string>, width: string -> int, maxWidth: int) {
    forall k :: 0 <= k < |lines| ==> LineOk(lines[k], width, maxWidth)
  }

  /** Closing the line under construction keeps the word order and the
      per-line guarantee. */
  lemma CloseLine(lines: seq<string>, currentWords: seq<string>, width: string -> int, maxWidth: int)
    requires currentWords != [] && AllWords(currentWords)
    requires LinesOk(lines, width, maxWidth)
    requires width(JoinWords(currentWords)) <= maxWidth || |currentWords| == 1
    ensures LinesOk(lines + [JoinWords(currentWords)], width, maxWidth)
    ensures WordsOf(lines + [JoinWords(currentWords)]) == WordsOf(lines) + currentWords
  {
    SplitJoin(currentWords);
    WordsOfSnoc(lines, JoinWords(currentWords));
  }

  /** The trial line `f"{current} {word}".strip()` is the current words
      with the next one added. */
  lemma TrialLine(currentWords: seq<string>, ws: seq<string>, i: nat)
    requires AllWords(currentWords) && AllWords(ws) && i < |ws|
    ensures AllWords(currentWords + [ws[i]]) && AllWords([ws[i]])
    ensures JoinWords(currentWords + [ws[i]]) ==
      if currentWords == [] then ws[i] else JoinWords(currentWords) + " " + ws[i]
  {
    if currentWords != [] { JoinWordsSnoc(currentWords, ws[i]); }
  }

  lemma JoinWordsEmpty(ws: seq<string>)
    requires AllWords(ws)
    ensures JoinWords(ws) == "" <==> ws == []
  {
    if |ws| > 1 {
      assert |JoinWords(ws)| >= |ws[0]| > 0;
    }
  }

  lemma PrefixStep<T>(a: seq<T>, b: seq<T>, ws: seq<T>, i: nat)
    requires i < |ws| && a + b == ws[..i]
    ensures a + (b + [ws[i]]) == ws[..i + 1]
    ensures (a + b) + [ws[i]] == ws[..i + 1]
  {
    assert ws[..i + 1] == ws[..i] + [ws[i]];
  }

  /** `wrap_text`: greedy word wrap against a text-width measure
      (`font.size(text)[0]`). Words keep their order, every line either fits
      or holds a single over-long word, and text without words comes back
      as the one line `[text]`. */
  method WrapText(text: string, width: string -> int, maxWidth: int) returns (lines: seq<string>)
    ensures Split(text) == [] ==> lines == [text]
    ensures Split(text) != [] ==> WordsOf(lines) == Split(text)
    ensures Split(text) != [] ==> forall k :: 0 <= k < |lines| ==>
      (width(lines[k]) <= maxWidth || |Split(lines[k])| == 1)
  {
    var words := Split(text);
    SplitGivesWords(text);
    lines := [];
    var current := "";
    ghost var currentWords: seq<string> := [];
    var i := 0;
    while i < |words|
      invariant 0 <= i <= |words|
      invariant AllWords(currentWords)
      invariant current == JoinWords(currentWords)
      invariant current == "" <==> currentWords == []
      invariant WordsOf(lines) + currentWords == words[..i]
      invariant LinesOk(lines, width, maxWidth)
      invariant current != "" ==> width(current) <= maxWidth || |currentWords| == 1
    {
      var word := words[i];
      var test := if current == "" then word else current + " " + word;
      TrialLine(currentWords, words, i);
      JoinWordsEmpty(currentWords + [word]);
      PrefixStep(WordsOf(lines), currentWords, words, i);
      if width(test) <= maxWidth {
        current := test;
        currentWords := currentWords + [word];
      } else {
        if current != "" {
          CloseLine(lines, currentWords, width, maxWidth);
          lines := lines + [current];
        }
        current := word;
        currentWords := [word];
      }
      i := i + 1;
    }
    if current != "" {
      CloseLine(lines, currentWords, width, maxWidth);
      lines := lines + [current];
    }
    assert words[..i] == words;
    assert LinesOk(lines, width, maxWidth);
    if lines == [] {
      lines := [text];
    }
  }
}
