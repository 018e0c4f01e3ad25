// Line breaking for exported documents: wrapText breaks at spaces and cuts words that
// are too wide. Only comparisons of widths with the limit are made; widths are a parameter.
module LineBreaking {

  type Width = string -> real

  predicate Fits(width: Width, max: real, s: string) { width(s) <= max }

  // ---- Splitting on white space --------------------------------------------

  function WordLength(text: string, space: char -> bool): (n: nat)
    ensures n <= |text|
    ensures forall i | 0 <= i < n :: !space(text[i])
    ensures n < |text| ==> space(text[n])
  {
    if text == "" || space(text[0]) then 0 else 1 + WordLength(text[1..], space)
  }

  function GapLength(text: string, space: char -> bool): (n: nat)
    ensures n <= |text|
    ensures forall i | 0 <= i < n :: space(text[i])
    ensures n < |text| ==> !space(text[n])
    ensures text != "" && space(text[0]) ==> n > 0
  {
    if text == "" || !space(text[0]) then 0 else 1 + GapLength(text[1..], space)
  }

  /** text.split(/\s+/): a leading or trailing gap leaves an empty word at that end. */
  function Split(text: string, space: char -> bool): (words: seq<string>)
    ensures words != []
    decreases |text|
  {
    var n := WordLength(text, space);
    if n == |text| then [text]
    else
      var rest := text[n..];
      [text[..n]] + Split(rest[GapLength(rest, space)..], space)
  }

  function Strip(s: string, space: char -> bool): string {
    if s == "" then "" else (if space(s[0]) then "" else [s[0]]) + Strip(s[1..], space)
  }

  function Concat(parts: seq<string>): string {
    if parts == [] then "" else Concat(parts[..|parts| - 1]) + parts[|parts| - 1]
  }

  predicate Solid(word: string, space: char -> bool) {
    forall i | 0 <= i < |word| :: !space(word[i])
  }

  // ---- The code -------------------------------------------------------------

  /** The binary search for a prefix length between lo and hi. */
  function Search(width: Width, max: real, word: string, lo: nat, hi: nat): (n: nat)
    requires 1 <= lo <= hi <= |word|
    ensures lo <= n <= hi
    decreases hi - lo
  {
    if lo == hi then lo
    else
      var mid := (lo + hi + 1) / 2;
      if Fits(width, max, word[..mid]) then Search(width, max, word, mid, hi) else Search(width, max, word, lo, mid - 1)
  }

  function Chop(width: Width, max: real, word: string): seq<string>
    decreases |word|
  {
    if word == "" then []
    else
      var n := Search(width, max, word, 1, |word|);
      [word[..n]] + Chop(width, max, word[n..])
  }

  datatype Page = Page(lines: seq<string>, current: string)

  function Flushed(p: Page): seq<string> {
    if p.current == "" then p.lines else p.lines + [p.current]
  }

  function Extended(current: string, word: string): string {
    if current == "" then word else current + " " + word
  }

  function Place(width: Width, max: real, p: Page, word: string): Page {
    if !Fits(width, max, word) then Page(Flushed(p) + Chop(width, max, word), "")
    else if !Fits(width, max, Extended(p.current, word)) && p.current != "" then Page(p.lines + [p.current], word)
    else Page(p.lines, Extended(p.current, word))
  }

  function PlaceAll(width: Width, max: real, words: seq<string>): Page {
    if words == [] then Page([], "")
    else Place(width, max, PlaceAll(width, max, words[..|words| - 1]), words[|words| - 1])
  }

  function Wrapped(width: Width, max: real, words: seq<string>): seq<string> {
    var lines := Flushed(PlaceAll(width, max, words));
    if lines == [] then [""] else lines
  }

  method FindPrefix(width: Width, max: real, remaining: string) returns (lo: nat)
    requires remaining != ""
    ensures 1 <= lo <= |remaining| && lo == Search(width, max, remaining, 1, |remaining|)
  {
    lo := 1;
    var hi := |remaining|;
    while lo < hi
      invariant 1 <= lo <= hi <= |remaining|
      invariant Search(width, max, remaining, lo, hi) == Search(width, max, remaining, 1, |remaining|)
    {
      var mid := (lo + hi + 1) / 2;
      if width(remaining[..mid]) <= max {
        lo := mid;
      } else {
        hi := mid - 1;
      }
    }
  }

  method ForceBreak(width: Width, max: real, word: string, before: seq<string>) returns (lines: seq<string>)
    ensures lines == before + Chop(width, max, word)
  {
    lines := before;
    var remaining := word;
    while |remaining| > 0
      invariant lines + Chop(width, max, remaining) == before + Chop(width, max, word)
      decreases |remaining|
    {
      var lo := FindPrefix(width, max, remaining);
      lines := lines + [remaining[..lo]];
      remaining := remaining[lo..];
    }
  }

  lemma {:induction false} PlaceAllTake(width: Width, max: real, words: seq<string>, i: nat)
    requires i < |words|
    ensures PlaceAll(width, max, words[..i + 1]) == Place(width, max, PlaceAll(width, max, words[..i]), words[i])
  {
    assert words[..i + 1][..i] == words[..i];
  }

  /** A word that is too wide ends the current line and is cut into lines of its own. */
  method PlaceWide(width: Width, max: real, word: string, before: seq<string>, current: string) returns (lines: seq<string>)
    requires width(word) > max
    ensures Page(lines, "") == Place(width, max, Page(before, current), word)
  {
    lines := before;
    if current != "" {
      lines := lines + [current];
    }
    lines := ForceBreak(width, max, word, lines);
  }

  method WrapText(width: Width, max: real, text: string, space: char -> bool) returns (lines: seq<string>)
    ensures lines == Wrapped(width, max, Split(text, space))
  {
    var words := Split(text, space);
    lines := [];
    var current := "";
    for i := 0 to |words|
      invariant Page(lines, current) == PlaceAll(width, max, words[..i])
    {
      var word := words[i];
      PlaceAllTake(width, max, words, i);
      if width(word) > max {
        lines := PlaceWide(width, max, word, lines, current);
        current := "";
      } else {
        var test := if current != "" then current + " " + word else word;
        if width(test) > max && current != "" {
          lines := lines + [current];
          current := word;
        } else {
          current := test;
        }
      }
    }
    assert words[..|words|] == words;
    if current != "" {
      lines := lines + [current];
    }
    if |lines| == 0 {
      lines := [""];
    }
  }

  // ---- Nothing is lost -------------------------------------------------------

  lemma {:induction false} StripAppend(a: string, b: string, space: char -> bool)
    ensures Strip(a + b, space) == Strip(a, space) + Strip(b, space)
  {
    if a == "" {
      assert a + b == b;
    } else {
      assert (a + b)[1..] == a[1..] + b;
      StripAppend(a[1..], b, space);
    }
  }

  lemma {:induction false} StripAll(gap: string, space: char -> bool)
    requires forall i | 0 <= i < |gap| :: space(gap[i])
    ensures Strip(gap, space) == ""
  {
    if gap == "" {
    } else {
      StripAll(gap[1..], space);
    }
  }

  lemma {:induction false} StripSolid(word: string, space: char -> bool)
    requires Solid(word, space)
    ensures Strip(word, space) == word
  {
    if word == "" {
    } else {
      StripSolid(word[1..], space);
      assert [word[0]] + word[1..] == word;
    }
  }

  lemma {:induction false} ConcatSnoc(a: seq<string>, s: string)
    ensures Concat(a + [s]) == Concat(a) + s
  {
    assert (a + [s])[..|a|] == a;
  }

  lemma {:induction false} ConcatAppend(a: seq<string>, b: seq<string>)
    ensures Concat(a + b) == Concat(a) + Concat(b)
    decreases |b|
  {
    if b == [] {
      assert a + b == a;
    } else {
      var front, last := b[..|b| - 1], b[|b| - 1];
      assert b == front + [last] && a + b == (a + front) + [last];
      ConcatAppend(a, front);
      ConcatSnoc(a + front, last);
      ConcatSnoc(front, last);
      Regroup(Concat(a), Concat(front), last);
    }
  }

  lemma {:induction false} ConcatOne(s: string)
    ensures Concat([s]) == s
  {
    assert [s][..0] == [];
  }

  /** The text after its first word and the gap that follows it. */
  function Tail(text: string, space: char -> bool): (tail: string)
    requires WordLength(text, space) < |text|
    ensures |tail| < |text|
  {
    var rest := text[WordLength(text, space)..];
    rest[GapLength(rest, space)..]
  }

  lemma {:induction false} SplitHead(text: string, space: char -> bool)
    requires WordLength(text, space) < |text|
    ensures Split(text, space) == [text[..WordLength(text, space)]] + Split(Tail(text, space), space)
  {
  }

  lemma {:induction false} StripThree(word: string, gap: string, tail: string, space: char -> bool)
    requires Strip(word, space) == word && Strip(gap, space) == ""
    ensures Strip(word + (gap + tail), space) == word + Strip(tail, space)
  {
    StripAppend(word, gap + tail, space);
    StripAppend(gap, tail, space);
    var kept := Strip(tail, space);
    assert "" + kept == kept;
  }

  function Gap(text: string, space: char -> bool): (gap: string)
    requires WordLength(text, space) < |text|
    ensures forall i | 0 <= i < |gap| :: space(gap[i])
  {
    var rest := text[WordLength(text, space)..];
    rest[..GapLength(rest, space)]
  }

  lemma {:induction false} Cut(text: string, n: nat, g: nat)
    requires n <= |text| && g <= |text[n..]|
    ensures text == text[..n] + (text[n..][..g] + text[n..][g..])
  {
    assert text[n..][..g] + text[n..][g..] == text[n..];
    assert text[..n] + text[n..] == text;
  }

  lemma {:induction false} TextParts(text: string, space: char -> bool)
    requires WordLength(text, space) < |text|
    ensures text == text[..WordLength(text, space)] + (Gap(text, space) + Tail(text, space))
  {
    var n := WordLength(text, space);
    Cut(text, n, GapLength(text[n..], space));
  }

  lemma {:induction false} StripHead(text: string, space: char -> bool)
    requires WordLength(text, space) < |text|
    ensures Strip(text, space) == text[..WordLength(text, space)] + Strip(Tail(text, space), space)
  {
    TextParts(text, space);
    StripSolid(text[..WordLength(text, space)], space);
    StripAll(Gap(text, space), space);
    StripThree(text[..WordLength(text, space)], Gap(text, space), Tail(text, space), space);
  }

  /** The words of a text hold its characters without the white space, in order. */
  lemma {:induction false} SplitKeeps(text: string, space: char -> bool)
    ensures Concat(Split(text, space)) == Strip(text, space)
    decreases |text|
  {
    var n := WordLength(text, space);
    if n == |text| {
      assert text[..n] == text;
      StripSolid(text, space);
      ConcatOne(text);
    } else {
      SplitHead(text, space);
      StripHead(text, space);
      SplitKeeps(Tail(text, space), space);
      ConcatAppend([text[..n]], Split(Tail(text, space), space));
      ConcatOne(text[..n]);
    }
  }

  lemma {:induction false} SplitSolid(text: string, space: char -> bool)
    ensures forall w | w in Split(text, space) :: Solid(w, space)
    decreases |text|
  {
    var n := WordLength(text, space);
    if n < |text| {
      SplitHead(text, space);
      SplitSolid(Tail(text, space), space);
    }
  }

  lemma {:induction false} ChopConcat(width: Width, max: real, word: string)
    ensures Concat(Chop(width, max, word)) == word
    decreases |word|
  {
    if word == "" {
    } else {
      var n := Search(width, max, word, 1, |word|);
      ChopConcat(width, max, word[n..]);
      ConcatAppend([word[..n]], Chop(width, max, word[n..]));
      ConcatOne(word[..n]);
      assert word[..n] + word[n..] == word;
    }
  }

  lemma {:induction false} FlushedConcat(p: Page)
    ensures Concat(Flushed(p)) == Concat(p.lines) + p.current
  {
    ConcatAppend(p.lines, [p.current]);
    ConcatOne(p.current);
  }

  lemma {:induction false} StripSpace(current: string, space: char -> bool)
    requires space(' ')
    ensures Strip(current + " ", space) == Strip(current, space)
  {
    StripAppend(current, " ", space);
    StripAll(" ", space);
  }

  lemma {:induction false} StripExtended(current: string, word: string, space: char -> bool)
    requires space(' ')
    ensures Strip(Extended(current, word), space) == Strip(current, space) + Strip(word, space)
  {
    if current == "" {
    } else {
      StripSpace(current, space);
      StripAppend(current + " ", word, space);
    }
  }

  /** The characters of a page so far. */
  function Held(p: Page, space: char -> bool): string { Strip(Concat(Flushed(p)), space) }

  lemma {:induction false} HeldSplits(p: Page, space: char -> bool)
    ensures Held(p, space) == Strip(Concat(p.lines), space) + Strip(p.current, space)
  {
    FlushedConcat(p);
    StripAppend(Concat(p.lines), p.current, space);
  }

  lemma {:induction false} ChopKeeps(width: Width, max: real, p: Page, word: string, space: char -> bool)
    ensures Held(Page(Flushed(p) + Chop(width, max, word), ""), space) == Held(p, space) + Strip(word, space)
  {
    ConcatAppend(Flushed(p), Chop(width, max, word));
    ChopConcat(width, max, word);
    StripAppend(Concat(Flushed(p)), word, space);
  }

  lemma {:induction false} FlushKeeps(p: Page, word: string, space: char -> bool)
    ensures Held(Page(Flushed(p), word), space) == Held(p, space) + Strip(word, space)
  {
    HeldSplits(Page(Flushed(p), word), space);
  }

  lemma {:induction false} Regroup(x: string, y: string, z: string)
    ensures x + (y + z) == (x + y) + z
  {
  }

  lemma {:induction false} LineKeeps(lines: seq<string>, a: string, b: string, more: string, space: char -> bool)
    requires Strip(b, space) == Strip(a, space) + more
    ensures Held(Page(lines, b), space) == Held(Page(lines, a), space) + more
  {
    HeldSplits(Page(lines, a), space);
    HeldSplits(Page(lines, b), space);
    Regroup(Strip(Concat(lines), space), Strip(a, space), more);
  }

  lemma {:induction false} ExtendKeeps(p: Page, word: string, space: char -> bool)
    requires space(' ')
    ensures Held(Page(p.lines, Extended(p.current, word)), space) == Held(p, space) + Strip(word, space)
  {
    StripExtended(p.current, word, space);
    LineKeeps(p.lines, p.current, Extended(p.current, word), Strip(word, space), space);
  }

  lemma {:induction false} PlaceKeeps(width: Width, max: real, p: Page, word: string, space: char -> bool)
    requires space(' ')
    ensures Held(Place(width, max, p, word), space) == Held(p, space) + Strip(word, space)
  {
    if !Fits(width, max, word) {
      ChopKeeps(width, max, p, word, space);
    } else if !Fits(width, max, Extended(p.current, word)) && p.current != "" {
      FlushKeeps(p, word, space);
    } else {
      ExtendKeeps(p, word, space);
    }
  }

  lemma {:induction false} PlaceAllKeeps(width: Width, max: real, words: seq<string>, space: char -> bool)
    requires space(' ') && forall w | w in words :: Solid(w, space)
    ensures Strip(Concat(Flushed(PlaceAll(width, max, words))), space) == Concat(words)
  {
    if words == [] {
    } else {
      var last := words[|words| - 1];
      PlaceAllKeeps(width, max, words[..|words| - 1], space);
      PlaceKeeps(width, max, PlaceAll(width, max, words[..|words| - 1]), last, space);
      StripSolid(last, space);
    }
  }

  /** Whatever the widths: the lines hold the text's characters, in order, bar white space. */
  lemma {:induction false} NoCharacterLost(width: Width, max: real, text: string, space: char -> bool)
    requires space(' ')
    ensures Strip(Concat(Wrapped(width, max, Split(text, space))), space) == Strip(text, space)
  {
    var words := Split(text, space);
    SplitKeeps(text, space);
    SplitSolid(text, space);
    PlaceAllKeeps(width, max, words, space);
    ConcatOne("");
  }

  // ---- Lines fit --------------------------------------------------------------

  ghost predicate PrefixMonotone(width: Width) {
    forall s: string, t: string :: width(s) <= width(s + t)
  }

  ghost predicate SuffixMonotone(width: Width) {
    forall s: string, t: string :: width(t) <= width(s + t)
  }

  lemma {:induction false} SearchFits(width: Width, max: real, word: string, lo: nat, hi: nat)
    requires 1 <= lo <= hi <= |word|
    ensures var n := Search(width, max, word, lo, hi);
            n == lo || Fits(width, max, word[..n])
    decreases hi - lo
  {
    if lo < hi {
      var mid := (lo + hi + 1) / 2;
      if Fits(width, max, word[..mid]) { SearchFits(width, max, word, mid, hi); } else { SearchFits(width, max, word, lo, mid - 1); }
    }
  }

  lemma {:induction false} SearchIsLongest(width: Width, max: real, word: string, lo: nat, hi: nat)
    requires 1 <= lo <= hi <= |word| && PrefixMonotone(width)
    requires forall k | hi < k <= |word| :: !Fits(width, max, word[..k])
    ensures var n := Search(width, max, word, lo, hi);
            forall k | n < k <= |word| :: !Fits(width, max, word[..k])
    decreases hi - lo
  {
    if lo < hi {
      var mid := (lo + hi + 1) / 2;
      if Fits(width, max, word[..mid]) {
        SearchIsLongest(width, max, word, mid, hi);
      } else {
        forall k | mid - 1 < k <= |word| ensures !Fits(width, max, word[..k]) {
          assert word[..k] == word[..mid] + word[mid..k];
        }
        SearchIsLongest(width, max, word, lo, mid - 1);
      }
    }
  }

  /** With widths that grow with the prefix, the search finds the longest prefix that fits. */
  lemma {:induction false} LongestPrefix(width: Width, max: real, word: string, k: nat)
    requires word != "" && PrefixMonotone(width) && Fits(width, max, word[..1])
    requires 1 <= k <= |word|
    ensures Fits(width, max, word[..k]) <==> k <= Search(width, max, word, 1, |word|)
  {
    var n := Search(width, max, word, 1, |word|);
    SearchFits(width, max, word, 1, |word|);
    SearchIsLongest(width, max, word, 1, |word|);
    if k <= n { assert word[..n] == word[..k] + word[k..n]; }
  }

  lemma {:induction false} ChopFits(width: Width, max: real, word: string)
    ensures forall line | line in Chop(width, max, word) :: |line| == 1 || (|line| > 1 && Fits(width, max, line))
    decreases |word|
  {
    if word == "" {
    } else {
      SearchFits(width, max, word, 1, |word|);
      ChopFits(width, max, word[Search(width, max, word, 1, |word|)..]);
    }
  }

  lemma {:induction false} PlaceAllFits(width: Width, max: real, words: seq<string>)
    ensures var p := PlaceAll(width, max, words);
            && (p.current != "" ==> Fits(width, max, p.current))
            && forall line | line in p.lines :: |line| == 1 || (line != "" && Fits(width, max, line))
  {
    if words == [] {
    } else {
      PlaceAllFits(width, max, words[..|words| - 1]);
      ChopFits(width, max, words[|words| - 1]);
    }
  }

  /** Whatever the widths, a line that does not fit is a single character, or the empty page. */
  lemma {:induction false} LinesFit(width: Width, max: real, words: seq<string>, line: string)
    requires line in Wrapped(width, max, words)
    ensures Fits(width, max, line) || |line| == 1 || Wrapped(width, max, words) == [""]
  {
    PlaceAllFits(width, max, words);
  }

  lemma {:induction false} EveryLineFits(width: Width, max: real, text: string, space: char -> bool, line: string)
    requires Fits(width, max, "") && forall c: char :: Fits(width, max, [c])
    requires line in Wrapped(width, max, Split(text, space))
    ensures Fits(width, max, line)
  {
    LinesFit(width, max, Split(text, space), line);
    if |line| == 1 { assert line == [line[0]]; }
  }

  // ---- Fewest lines -------------------------------------------------------------

  function Join(words: seq<string>): string {
    if words == [] then ""
    else if |words| == 1 then words[0]
    else Join(words[..|words| - 1]) + " " + words[|words| - 1]
  }

  function Flatten(groups: seq<seq<string>>): seq<string> {
    if groups == [] then [] else Flatten(groups[..|groups| - 1]) + groups[|groups| - 1]
  }

  /** One way of breaking the words at spaces into lines that fit. */
  ghost predicate Breaking(width: Width, max: real, groups: seq<seq<string>>, words: seq<string>) {
    && Flatten(groups) == words
    && forall g | g in groups :: g != [] && Fits(width, max, Join(g))
  }

  function Lines(groups: seq<seq<string>>): seq<string> {
    seq(|groups|, (i: nat) requires i < |groups| => Join(groups[i]))
  }

  /** What the code does when no word is empty or too wide. */
  function Greedy(width: Width, max: real, words: seq<string>): (groups: seq<seq<string>>)
    ensures groups == [] <==> words == []
    ensures forall g | g in groups :: g != []
  {
    if words == [] then []
    else
      var w, groups := words[|words| - 1], Greedy(width, max, words[..|words| - 1]);
      if groups == [] then [[w]]
      else
        var last := |groups| - 1;
        var longer := groups[..last] + [groups[last] + [w]];
        assert forall g | g in longer :: g in groups || |g| > 0;
        if Fits(width, max, Join(groups[last] + [w])) then longer else groups + [[w]]
  }

  ghost predicate Plain(width: Width, max: real, words: seq<string>) {
    forall w | w in words :: w != "" && Fits(width, max, w)
  }

  lemma {:induction false} FlattenSnoc(groups: seq<seq<string>>, g: seq<string>)
    ensures Flatten(groups + [g]) == Flatten(groups) + g
  {
    assert (groups + [g])[..|groups|] == groups;
  }

  lemma {:induction false} JoinSnoc(words: seq<string>, w: string)
    requires words != []
    ensures Join(words + [w]) == Join(words) + " " + w
  {
    assert (words + [w])[..|words|] == words;
  }

  /** Joining after more words only puts something in front. */
  lemma {:induction false} JoinSuffix(a: seq<string>, b: seq<string>) returns (head: string)
    requires b != []
    ensures Join(a + b) == head + Join(b)
    decreases |b|
  {
    var front, w := b[..|b| - 1], b[|b| - 1];
    assert b == front + [w];
    if a == [] {
      assert a + b == b;
      head := "";
    } else if front == [] {
      head := Join(a) + " ";
      assert a + b == a + [w];
      JoinSnoc(a, w);
    } else {
      head := JoinSuffix(a, front);
      assert a + b == (a + front) + [w];
      JoinSnoc(a + front, w);
      JoinSnoc(front, w);
      assert head + Join(front) + " " + w == head + (Join(front) + " " + w);
    }
  }

  /** The greedy breaking is one of the breakings that fit. */
  /** The next word on a line of its own. */
  lemma {:induction false} FreshBreaks(width: Width, max: real, groups: seq<seq<string>>, w: string, words: seq<string>)
    requires Breaking(width, max, groups, words) && Fits(width, max, Join([w]))
    ensures Breaking(width, max, groups + [[w]], words + [w])
  {
    FlattenSnoc(groups, [w]);
  }

  /** The next word at the end of the last line. */
  lemma {:induction false} LongerBreaks(width: Width, max: real, init: seq<seq<string>>, g: seq<string>, w: string, words: seq<string>)
    requires Breaking(width, max, init + [g], words) && Fits(width, max, Join(g + [w]))
    ensures Breaking(width, max, init + [g + [w]], words + [w])
  {
    FlattenSnoc(init, g);
    FlattenSnoc(init, g + [w]);
    assert Flatten(init) + (g + [w]) == Flatten(init) + g + [w];
    assert forall x | x in init :: x in init + [g];
  }

  lemma {:induction false} PlainSnoc(width: Width, max: real, front: seq<string>, w: string)
    requires Plain(width, max, front + [w])
    ensures Plain(width, max, front) && Fits(width, max, w) && Join([w]) == w
  {
    assert w in front + [w] && forall x | x in front :: x in front + [w];
  }

  lemma {:induction false} GreedySnoc(width: Width, max: real, front: seq<string>, w: string)
    ensures var groups := Greedy(width, max, front);
            Greedy(width, max, front + [w]) ==
            if groups == [] || !Fits(width, max, Join(groups[|groups| - 1] + [w])) then groups + [[w]]
            else groups[..|groups| - 1] + [groups[|groups| - 1] + [w]]
  {
    assert (front + [w])[..|front|] == front;
  }

  lemma {:induction false} GreedyBreaks(width: Width, max: real, words: seq<string>)
    requires Plain(width, max, words)
    ensures Breaking(width, max, Greedy(width, max, words), words)
  {
    if words == [] {
    } else {
      var front, w := words[..|words| - 1], words[|words| - 1];
      var groups := Greedy(width, max, front);
      assert words == front + [w];
      PlainSnoc(width, max, front, w);
      GreedyBreaks(width, max, front);
      GreedySnoc(width, max, front, w);
      FreshBreaks(width, max, groups, w, front);
      if groups != [] {
        var init, g := groups[..|groups| - 1], groups[|groups| - 1];
        assert groups == init + [g];
        if Fits(width, max, Join(g + [w])) { LongerBreaks(width, max, init, g, w, front); }
      }
    }
  }

  lemma {:induction false} LinesSnoc(groups: seq<seq<string>>, g: seq<string>)
    ensures Lines(groups + [g]) == Lines(groups) + [Join(g)]
  {
  }

  lemma {:induction false} PlaceNext(width: Width, max: real, p: Page, groups: seq<seq<string>>, g: seq<string>, w: string)
    requires w != "" && Fits(width, max, w) && g != []
    requires p.lines == Lines(groups) && p.current == Join(g) && p.current != ""
    ensures var q := Place(width, max, p, w);
            if Fits(width, max, Join(g + [w])) then q.lines == Lines(groups) && q.current == Join(g + [w]) && q.current != ""
            else q.lines == Lines(groups + [g]) && q.current == Join([w]) && q.current != ""
  {
    JoinSnoc(g, w);
    LinesSnoc(groups, g);
    assert |Join(g + [w])| > 0;
  }

  /** On such words the code lays out exactly the greedy breaking. */
  lemma {:induction false} PlaceAllIsGreedy(width: Width, max: real, words: seq<string>)
    requires Plain(width, max, words) && words != []
    ensures var p, groups := PlaceAll(width, max, words), Greedy(width, max, words);
            && p.lines == Lines(groups[..|groups| - 1])
            && p.current == Join(groups[|groups| - 1]) && p.current != ""
    decreases |words|
  {
    var front, w := words[..|words| - 1], words[|words| - 1];
    var groups := Greedy(width, max, front);
    if front == [] {
      assert PlaceAll(width, max, front) == Page([], "");
    } else {
      assert w in words && forall x | x in front :: x in words;
      PlaceAllIsGreedy(width, max, front);
      var last := |groups| - 1;
      PlaceNext(width, max, PlaceAll(width, max, front), groups[..last], groups[last], w);
      assert groups[..last] + [groups[last]] == groups;
      var longer := groups[..last] + [groups[last] + [w]];
      assert longer[..|longer| - 1] == groups[..last];
      assert (groups + [[w]])[..|groups|] == groups;
    }
  }

  lemma {:induction false} WrappedIsGreedy(width: Width, max: real, words: seq<string>)
    requires Plain(width, max, words) && words != []
    ensures Wrapped(width, max, words) == Lines(Greedy(width, max, words))
  {
    PlaceAllIsGreedy(width, max, words);
    var groups := Greedy(width, max, words);
    var last := |groups| - 1;
    LinesSnoc(groups[..last], groups[last]);
    assert groups[..last] + [groups[last]] == groups;
  }

  /** The last group with its last word taken away, and the group dropped if that empties it. */
  function Shrunk(groups: seq<seq<string>>): seq<seq<string>>
    requires groups != [] && groups[|groups| - 1] != []
  {
    var last := |groups| - 1;
    var g := groups[last];
    if |g| == 1 then groups[..last] else groups[..last] + [g[..|g| - 1]]
  }

  lemma {:induction false} JoinPrefixFits(width: Width, max: real, g: seq<string>, w: string)
    requires PrefixMonotone(width) && g != [] && Fits(width, max, Join(g + [w]))
    ensures Fits(width, max, Join(g))
  {
    JoinSnoc(g, w);
    assert Join(g + [w]) == Join(g) + (" " + w);
  }

  lemma {:induction false} LastWord(width: Width, max: real, init: seq<seq<string>>, front: seq<string>, w: string, words: seq<string>)
    requires Breaking(width, max, init + [front + [w]], words)
    ensures words == (Flatten(init) + front) + [w] && Fits(width, max, Join(front + [w]))
    ensures forall x | x in init :: x != [] && Fits(width, max, Join(x))
  {
    var g := front + [w];
    FlattenSnoc(init, g);
    assert g in init + [g] && forall x | x in init :: x in init + [g];
    assert (Flatten(init) + front) + [w] == Flatten(init) + g;
  }

  lemma {:induction false} ShrunkBreaks(width: Width, max: real, groups: seq<seq<string>>, words: seq<string>)
    requires PrefixMonotone(width) && Breaking(width, max, groups, words) && words != []
    ensures groups != [] && groups[|groups| - 1] != []
    ensures groups[|groups| - 1][|groups[|groups| - 1]| - 1] == words[|words| - 1]
    ensures Breaking(width, max, Shrunk(groups), words[..|words| - 1])
  {
    var init, g := groups[..|groups| - 1], groups[|groups| - 1];
    assert groups == init + [g] && g in groups;
    var front, w := g[..|g| - 1], g[|g| - 1];
    assert g == front + [w];
    LastWord(width, max, init, front, w, words);
    assert words[..|words| - 1] == Flatten(init) + front;
    if |g| > 1 {
      FlattenSnoc(init, front);
      JoinPrefixFits(width, max, front, w);
    } else {
      assert Flatten(init) + front == Flatten(init);
    }
  }

  /** Two last groups of the same words: the shorter is a suffix of the longer. */
  lemma {:induction false} LastGroupsOverlap(width: Width, max: real, a: seq<seq<string>>, b: seq<seq<string>>, words: seq<string>)
    requires Breaking(width, max, a, words) && Breaking(width, max, b, words) && a != [] && b != []
    requires |a[|a| - 1]| <= |b[|b| - 1]|
    ensures var x, y := a[|a| - 1], b[|b| - 1];
            y[|y| - |x|..] == x
  {
    var x, y := a[|a| - 1], b[|b| - 1];
    assert a == a[..|a| - 1] + [x] && b == b[..|b| - 1] + [y];
    FlattenSnoc(a[..|a| - 1], x);
    FlattenSnoc(b[..|b| - 1], y);
    assert words[|words| - |x|..] == x && words[|words| - |y|..] == y;
  }

  lemma {:induction false} ShorterLineFits(width: Width, max: real, x: seq<string>, y: seq<string>, w: string)
    requires SuffixMonotone(width) && x != [] && |x| <= |y| && y[|y| - |x|..] == x
    requires Fits(width, max, Join(y + [w]))
    ensures Fits(width, max, Join(x + [w]))
  {
    var head := y[..|y| - |x|];
    assert y + [w] == head + (x + [w]);
    var h := JoinSuffix(head, x + [w]);
  }

  ghost predicate Ahead(groups: seq<seq<string>>, other: seq<seq<string>>) {
    && groups != [] && other != [] && |groups| <= |other|
    && (|groups| == |other| ==> |groups[|groups| - 1]| <= |other[|other| - 1]|)
  }

  /** With as many lines so far and a last line no longer, greedy can take what the other takes. */
  lemma {:induction false} MustFit(width: Width, max: real, groups: seq<seq<string>>, other: seq<seq<string>>,
                                   front: seq<string>, w: string)
    requires SuffixMonotone(width) && groups != [] && other != [] && |other[|other| - 1]| > 1
    requires Breaking(width, max, groups, front) && Breaking(width, max, Shrunk(other), front)
    requires |groups[|groups| - 1]| <= |other[|other| - 1]| - 1
    requires other[|other| - 1][|other[|other| - 1]| - 1] == w && Fits(width, max, Join(other[|other| - 1]))
    ensures Fits(width, max, Join(groups[|groups| - 1] + [w]))
  {
    var o := other[|other| - 1];
    var shorter := o[..|o| - 1];
    assert o == shorter + [w] && groups[|groups| - 1] in groups;
    LastGroupsOverlap(width, max, groups, Shrunk(other), front);
    ShorterLineFits(width, max, groups[|groups| - 1], shorter, w);
  }

  /** Greedy's next move, given whether the word fits on the last line. */
  function Extend(groups: seq<seq<string>>, w: string, fits: bool): seq<seq<string>>
    requires groups != []
  {
    if fits then groups[..|groups| - 1] + [groups[|groups| - 1] + [w]] else groups + [[w]]
  }

  lemma {:induction false} AheadStep(groups: seq<seq<string>>, other: seq<seq<string>>, w: string, fits: bool)
    requires other != [] && other[|other| - 1] != [] && Ahead(groups, Shrunk(other))
    requires |other[|other| - 1]| > 1 && |groups| == |other| ==> fits
    ensures Ahead(Extend(groups, w, fits), other)
  {
    var last := |groups| - 1;
    assert Extend(groups, w, fits)[|Extend(groups, w, fits)| - 1] == if fits then groups[last] + [w] else [w];
  }

  lemma {:induction false} GreedyUnfolds(width: Width, max: real, front: seq<string>, w: string)
    requires front != []
    ensures var groups := Greedy(width, max, front);
            Greedy(width, max, front + [w]) == Extend(groups, w, Fits(width, max, Join(groups[|groups| - 1] + [w])))
  {
    assert (front + [w])[..|front|] == front;
  }

  lemma {:induction false} StaysAhead(width: Width, max: real, front: seq<string>, w: string, other: seq<seq<string>>)
    requires PrefixMonotone(width) && SuffixMonotone(width) && Plain(width, max, front) && front != []
    requires Breaking(width, max, other, front + [w]) && other != [] && other[|other| - 1] != []
    requires other[|other| - 1][|other[|other| - 1]| - 1] == w && Breaking(width, max, Shrunk(other), front)
    requires Ahead(Greedy(width, max, front), Shrunk(other))
    ensures Ahead(Greedy(width, max, front + [w]), other)
  {
    GreedyBreaks(width, max, front);
    GreedyUnfolds(width, max, front, w);
    var groups := Greedy(width, max, front);
    var o := other[|other| - 1];
    if |o| > 1 && |groups| == |other| {
      assert o in other;
      MustFit(width, max, groups, other, front, w);
    }
    AheadStep(groups, other, w, Fits(width, max, Join(groups[|groups| - 1] + [w])));
  }

  /**
   * Compared with any other breaking, the greedy one has fewer lines, or as many with a
   * last line that is no longer.
   */
  lemma {:induction false} GreedyAhead(width: Width, max: real, words: seq<string>, other: seq<seq<string>>)
    requires PrefixMonotone(width) && SuffixMonotone(width) && Plain(width, max, words)
    requires Breaking(width, max, other, words) && words != []
    ensures Ahead(Greedy(width, max, words), other)
    decreases |words|
  {
    var front, w := words[..|words| - 1], words[|words| - 1];
    assert words == front + [w];
    ShrunkBreaks(width, max, other, words);
    if front != [] {
      assert forall x | x in front :: x in words;
      GreedyAhead(width, max, front, Shrunk(other));
      StaysAhead(width, max, front, w, other);
    }
  }

  // ---- From words to texts ------------------------------------------------------

  function NonEmpty(words: seq<string>): seq<string> {
    if words == [] then []
    else NonEmpty(words[..|words| - 1]) + if words[|words| - 1] == "" then [] else [words[|words| - 1]]
  }

  /** After the first word, a split goes on with a text that starts with no gap. */
  lemma {:induction false} SplitUnfolds(text: string, space: char -> bool) returns (tail: string)
    requires |Split(text, space)| > 1
    ensures Split(text, space)[1..] == Split(tail, space) && |tail| < |text|
    ensures tail != "" ==> Split(tail, space)[0] != ""
  {
    tail := Tail(text, space);
    SplitHead(text, space);
  }

  /** Only the first and the last word of a split can be empty. */
  lemma {:induction false} EmptyWordsAtTheEnds(text: string, space: char -> bool, i: nat)
    requires var words := Split(text, space); i < |words| && words[i] == ""
    ensures i == 0 || i == |Split(text, space)| - 1
    decreases |text|
  {
    if i > 0 {
      var tail := SplitUnfolds(text, space);
      assert Split(text, space)[i] == Split(tail, space)[i - 1];
      EmptyWordsAtTheEnds(tail, space, i - 1);
      if i == 1 { SplitOfNothing(space); }
    }
  }

  lemma {:induction false} SplitOfNothing(space: char -> bool)
    ensures Split("", space) == [""]
  {
  }

  lemma {:induction false} LeadingEmptyWord(width: Width, max: real, words: seq<string>)
    ensures PlaceAll(width, max, [""] + words) == PlaceAll(width, max, words)
    ensures NonEmpty([""] + words) == NonEmpty(words)
  {
    var all := [""] + words;
    if words == [] {
      assert all == [""] && all[..0] == [];
      assert PlaceAll(width, max, all) == Place(width, max, Page([], ""), "");
    } else {
      assert all[..|all| - 1] == [""] + words[..|words| - 1];
      LeadingEmptyWord(width, max, words[..|words| - 1]);
    }
  }

  /** A trailing gap may put a space on the last line but never starts another. */
  lemma {:induction false} TrailingEmptyWord(width: Width, max: real, words: seq<string>)
    ensures |Flushed(PlaceAll(width, max, words + [""]))| == |Flushed(PlaceAll(width, max, words))|
    ensures NonEmpty(words + [""]) == NonEmpty(words)
  {
    assert (words + [""])[..|words|] == words;
  }

  lemma {:induction false} NoneEmpty(words: seq<string>)
    requires forall i | 0 <= i < |words| :: words[i] != ""
    ensures NonEmpty(words) == words
  {
    if words == [] {
    } else {
      NoneEmpty(words[..|words| - 1]);
      assert words == words[..|words| - 1] + [words[|words| - 1]];
    }
  }

  function WithoutFirst(words: seq<string>): seq<string> {
    if words != [] && words[0] == "" then words[1..] else words
  }

  function WithoutLast(words: seq<string>): seq<string> {
    if words != [] && words[|words| - 1] == "" then words[..|words| - 1] else words
  }

  lemma {:induction false} WithoutFirstCounts(width: Width, max: real, words: seq<string>)
    ensures PlaceAll(width, max, WithoutFirst(words)) == PlaceAll(width, max, words)
    ensures NonEmpty(WithoutFirst(words)) == NonEmpty(words)
  {
    if words != [] && words[0] == "" {
      assert words == [""] + words[1..];
      LeadingEmptyWord(width, max, words[1..]);
    }
  }

  lemma {:induction false} WithoutLastCounts(width: Width, max: real, words: seq<string>)
    ensures |Flushed(PlaceAll(width, max, WithoutLast(words)))| == |Flushed(PlaceAll(width, max, words))|
    ensures NonEmpty(WithoutLast(words)) == NonEmpty(words)
  {
    if words != [] && words[|words| - 1] == "" {
      assert words == words[..|words| - 1] + [""];
      TrailingEmptyWord(width, max, words[..|words| - 1]);
    }
  }

  lemma {:induction false} CoreIsNonEmpty(words: seq<string>)
    requires forall i | 0 <= i < |words| && words[i] == "" :: i == 0 || i == |words| - 1
    ensures var core := WithoutLast(WithoutFirst(words));
            forall i | 0 <= i < |core| :: core[i] != "" && core[i] in words
  {
    var core := WithoutLast(WithoutFirst(words));
    var shift := |words| - |WithoutFirst(words)|;
    forall i | 0 <= i < |core| ensures core[i] != "" && core[i] in words {
      assert core[i] == words[i + shift];
    }
  }

  /** Empty words at the two ends change neither the count of lines nor the real words. */
  lemma {:induction false} EmptyEndsDoNotCount(width: Width, max: real, words: seq<string>)
    requires forall i | 0 <= i < |words| && words[i] == "" :: i == 0 || i == |words| - 1
    ensures |Flushed(PlaceAll(width, max, words))| == |Flushed(PlaceAll(width, max, NonEmpty(words)))|
    ensures forall w | w in NonEmpty(words) :: w in words && w != ""
  {
    WithoutFirstCounts(width, max, words);
    WithoutLastCounts(width, max, WithoutFirst(words));
    CoreIsNonEmpty(words);
    NoneEmpty(WithoutLast(WithoutFirst(words)));
  }

  lemma {:induction false} SplitEnds(text: string, space: char -> bool)
    ensures var words := Split(text, space);
            forall i | 0 <= i < |words| && words[i] == "" :: i == 0 || i == |words| - 1
  {
    var words := Split(text, space);
    forall i | 0 <= i < |words| && words[i] == "" ensures i == 0 || i == |words| - 1 {
      EmptyWordsAtTheEnds(text, space, i);
    }
  }

  /** When every word fits, the number of lines is that of the greedy breaking of the real words. */
  lemma {:induction false} LineCount(width: Width, max: real, text: string, space: char -> bool)
    requires forall w | w in Split(text, space) :: w != "" ==> Fits(width, max, w)
    ensures var words := Split(text, space);
            && Plain(width, max, NonEmpty(words))
            && |Wrapped(width, max, words)| == if NonEmpty(words) == [] then 1 else |Greedy(width, max, NonEmpty(words))|
  {
    var words := Split(text, space);
    SplitEnds(text, space);
    EmptyEndsDoNotCount(width, max, words);
    if NonEmpty(words) != [] {
      WrappedIsGreedy(width, max, NonEmpty(words));
      PlaceAllIsGreedy(width, max, NonEmpty(words));
    }
  }

  lemma {:induction false} NoWordsNoGroups(width: Width, max: real, other: seq<seq<string>>, words: seq<string>)
    requires Breaking(width, max, other, words)
    ensures words == [] <==> other == []
  {
    if other == [] {
    } else {
      assert other == other[..|other| - 1] + [other[|other| - 1]];
      FlattenSnoc(other[..|other| - 1], other[|other| - 1]);
      assert other[|other| - 1] in other;
    }
  }

  lemma {:induction false} GreedyIsFewest(width: Width, max: real, words: seq<string>, other: seq<seq<string>>)
    requires PrefixMonotone(width) && SuffixMonotone(width) && Plain(width, max, words)
    requires Breaking(width, max, other, words)
    ensures |Greedy(width, max, words)| <= |other|
  {
    if words == [] {
    } else {
      GreedyAhead(width, max, words, other);
    }
  }

  /** When every word fits, no other way of breaking at spaces uses fewer lines, and one uses as many. */
  lemma {:induction false} FewestLines(width: Width, max: real, text: string, space: char -> bool, other: seq<seq<string>>)
    requires PrefixMonotone(width) && SuffixMonotone(width)
    requires forall w | w in Split(text, space) :: w != "" ==> Fits(width, max, w)
    requires Breaking(width, max, other, NonEmpty(Split(text, space))) && other != []
    ensures |Wrapped(width, max, Split(text, space))| <= |other|
    ensures exists best :: Breaking(width, max, best, NonEmpty(Split(text, space)))
                        && |best| == |Wrapped(width, max, Split(text, space))|
  {
    var words := NonEmpty(Split(text, space));
    LineCount(width, max, text, space);
    NoWordsNoGroups(width, max, other, words);
    GreedyIsFewest(width, max, words, other);
    GreedyBreaks(width, max, words);
  }
}
