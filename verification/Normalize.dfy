/** The normal forms the evaluator compares: texts folded and re-spaced, line items sorted by their text.
    Character classes, case folding and the reading of decimals are parameters. */
module Normalize {
  import opened Options
  import opened Sorting

  // ---- Texts ----

  datatype TextRules = TextRules(isSpace: char -> bool, fold: char -> string)

  /** Folding twice changes no more than folding once, and leaves every space alone. */
  ghost predicate ValidRules(rules: TextRules) {
    && rules.isSpace(' ')
    && (forall c :: rules.isSpace(c) ==> rules.fold(c) == [c])
    && forall c, d :: d in rules.fold(c) ==> rules.fold(d) == [d]
  }

  function Strip(isSpace: char -> bool, text: string): string
    decreases text
  {
    if text == [] then text
    else if isSpace(text[0]) then Strip(isSpace, text[1..])
    else if isSpace(text[|text| - 1]) then Strip(isSpace, text[..|text| - 1])
    else text
  }

  function FoldText(fold: char -> string, text: string): string
    decreases text
  {
    if text == [] then [] else fold(text[0]) + FoldText(fold, text[1..])
  }

  /** The maximal runs of characters that are not spaces; `current` is the run under way. */
  function Split(isSpace: char -> bool, current: string, text: string): seq<string>
    decreases text
  {
    if text == [] then if current == [] then [] else [current]
    else if !isSpace(text[0]) then Split(isSpace, current + [text[0]], text[1..])
    else (if current == [] then [] else [current]) + Split(isSpace, [], text[1..])
  }

  function Join(words: seq<string>): string {
    if words == [] then "" else if |words| == 1 then words[0] else words[0] + " " + Join(words[1..])
  }

  function NormalizeText(rules: TextRules, text: string): string {
    Join(Split(rules.isSpace, [], FoldText(rules.fold, Strip(rules.isSpace, text))))
  }

  /** Nothing but characters that folding leaves alone. */
  ghost predicate Folded(fold: char -> string, text: string) {
    forall c :: c in text ==> fold(c) == [c]
  }

  ghost predicate IsWord(isSpace: char -> bool, word: string) {
    word != [] && forall c :: c in word ==> !isSpace(c)
  }

  lemma {:induction false} FoldTextFolds(rules: TextRules, text: string)
    requires ValidRules(rules)
    ensures Folded(rules.fold, FoldText(rules.fold, text))
    decreases text
  {
    if text != [] {
      FoldTextFolds(rules, text[1..]);
    }
  }

  lemma {:induction false} FoldedStays(fold: char -> string, text: string)
    requires Folded(fold, text)
    ensures FoldText(fold, text) == text
    decreases text
  {
    if text != [] {
      FoldedStays(fold, text[1..]);
      assert text[0] in text;
    }
  }

  lemma {:induction false} SplitGivesWords(rules: TextRules, current: string, text: string)
    requires current == [] || IsWord(rules.isSpace, current)
    requires Folded(rules.fold, current) && Folded(rules.fold, text)
    ensures forall word :: word in Split(rules.isSpace, current, text) ==> IsWord(rules.isSpace, word) && Folded(rules.fold, word)
    decreases text
  {
    if text != [] {
      assert text[0] in text;
      SplitGivesWords(rules, if rules.isSpace(text[0]) then [] else current + [text[0]], text[1..]);
    }
  }

  lemma {:induction false} SplitReadsWord(isSpace: char -> bool, current: string, word: string, rest: string)
    requires forall c :: c in word ==> !isSpace(c)
    ensures Split(isSpace, current, word + rest) == Split(isSpace, current + word, rest)
    decreases word
  {
    if word == [] {
      assert word + rest == rest && current + word == current;
    } else {
      assert word[0] in word;
      SplitReadsWord(isSpace, current + [word[0]], word[1..], rest);
      assert (word + rest)[1..] == word[1..] + rest;
      assert current + [word[0]] + word[1..] == current + word;
    }
  }

  /** Splitting undoes joining. */
  lemma {:induction false} SplitUndoesJoin(isSpace: char -> bool, words: seq<string>)
    requires isSpace(' ') && forall word :: word in words ==> IsWord(isSpace, word)
    ensures Split(isSpace, [], Join(words)) == words
    decreases words
  {
    if words != [] {
      var rest := if |words| == 1 then "" else " " + Join(words[1..]);
      assert Join(words) == words[0] + rest;
      assert words[0] in words;
      SplitReadsWord(isSpace, [], words[0], rest);
      assert [] + words[0] == words[0];
      if |words| > 1 {
        SplitUndoesJoin(isSpace, words[1..]);
        assert rest[1..] == Join(words[1..]);
      }
      assert words == [words[0]] + words[1..];
    }
  }

  /** A joined text has no space at either end, and folding leaves it alone. */
  lemma {:induction false} JoinedIsTidy(rules: TextRules, words: seq<string>)
    requires ValidRules(rules)
    requires forall word :: word in words ==> IsWord(rules.isSpace, word) && Folded(rules.fold, word)
    ensures Folded(rules.fold, Join(words))
    ensures words != [] ==>
              && Join(words) != []
              && !rules.isSpace(Join(words)[0])
              && !rules.isSpace(Join(words)[|Join(words)| - 1])
    decreases words
  {
    if words != [] {
      assert words[0] in words;
      assert words[0][0] in words[0] && words[0][|words[0]| - 1] in words[0];
      JoinedIsTidy(rules, words[1..]);
    }
  }

  /** Normalising a normalised text changes nothing. */
  lemma NormalizeTextIsIdempotent(rules: TextRules, text: string)
    requires ValidRules(rules)
    ensures NormalizeText(rules, NormalizeText(rules, text)) == NormalizeText(rules, text)
  {
    var folded := FoldText(rules.fold, Strip(rules.isSpace, text));
    FoldTextFolds(rules, Strip(rules.isSpace, text));
    SplitGivesWords(rules, [], folded);
    var words := Split(rules.isSpace, [], folded);
    JoinedIsTidy(rules, words);
    assert Strip(rules.isSpace, Join(words)) == Join(words);
    FoldedStays(rules.fold, Join(words));
    SplitUndoesJoin(rules.isSpace, words);
  }

  ghost predicate AreFoldedWords(rules: TextRules, words: seq<string>) {
    forall word :: word in words ==> IsWord(rules.isSpace, word) && Folded(rules.fold, word)
  }

  /** The normal forms are exactly the folded words with one space between neighbours. */
  lemma NormalFormsAreJoinedWords(rules: TextRules, text: string)
    requires ValidRules(rules)
    ensures NormalizeText(rules, text) == text <==> exists words :: AreFoldedWords(rules, words) && text == Join(words)
  {
    var folded := FoldText(rules.fold, Strip(rules.isSpace, text));
    FoldTextFolds(rules, Strip(rules.isSpace, text));
    SplitGivesWords(rules, [], folded);
    assert AreFoldedWords(rules, Split(rules.isSpace, [], folded));
    forall words | AreFoldedWords(rules, words) && text == Join(words)
      ensures NormalizeText(rules, text) == text
    {
      JoinedIsTidy(rules, words);
      assert Strip(rules.isSpace, text) == text;
      FoldedStays(rules.fold, text);
      SplitUndoesJoin(rules.isSpace, words);
    }
  }

  // ---- Nothing but spacing and case is lost ----

  /** A text is folded character by character. */
  lemma {:induction false} FoldTextOfBoth(fold: char -> string, a: string, b: string)
    ensures FoldText(fold, a + b) == FoldText(fold, a) + FoldText(fold, b)
    ensures forall c :: FoldText(fold, [c]) == fold(c)
    decreases a
  {
    forall c
      ensures FoldText(fold, [c]) == fold(c)
    {
      assert [c][1..] == [];
    }
    if a == [] {
      assert a + b == b;
    } else {
      FoldTextOfBoth(fold, a[1..], b);
      assert (a + b)[1..] == a[1..] + b;
      var first, rest := fold(a[0]), FoldText(fold, a[1..]);
      assert first + (rest + FoldText(fold, b)) == (first + rest) + FoldText(fold, b);
    }
  }

  /** A space ends the run under way. */
  lemma {:induction false} SplitAtSpace(isSpace: char -> bool, current: string, a: string, space: char, b: string)
    requires isSpace(space)
    ensures Split(isSpace, current, a + [space] + b) == Split(isSpace, current, a) + Split(isSpace, [], b)
    decreases a
  {
    var text := a + [space] + b;
    if a == [] {
      assert text[1..] == b;
    } else {
      assert text[1..] == a[1..] + [space] + b;
      SplitAtSpace(isSpace, if isSpace(a[0]) then [] else current + [a[0]], a[1..], space, b);
    }
  }

  /** The words of a text, folded. */
  function Words(rules: TextRules, text: string): seq<string> {
    Split(rules.isSpace, [], FoldText(rules.fold, text))
  }

  lemma {:induction false} StripKeepsWords(rules: TextRules, text: string)
    requires ValidRules(rules)
    ensures Words(rules, Strip(rules.isSpace, text)) == Words(rules, text)
    decreases text
  {
    if text != [] {
      var last := |text| - 1;
      if rules.isSpace(text[0]) {
        StripKeepsWords(rules, text[1..]);
        WordsMeetAtSpace(rules, [], text[0], text[1..]);
        assert [] + [text[0]] + text[1..] == text;
      } else if rules.isSpace(text[last]) {
        StripKeepsWords(rules, text[..last]);
        WordsMeetAtSpace(rules, text[..last], text[last], []);
        assert text[..last] + [text[last]] + [] == text;
      }
    }
  }

  lemma WordsMeetAtSpace(rules: TextRules, a: string, space: char, b: string)
    requires ValidRules(rules) && rules.isSpace(space)
    ensures Words(rules, a + [space] + b) == Words(rules, a) + Words(rules, b)
  {
    FoldTextOfBoth(rules.fold, a + [space], b);
    FoldTextOfBoth(rules.fold, a, [space]);
    SplitAtSpace(rules.isSpace, [], FoldText(rules.fold, a), space, FoldText(rules.fold, b));
  }

  /** The normal form is the folded words with one space between neighbours, and its words are these. */
  lemma NormalFormJoinsWords(rules: TextRules, text: string)
    requires ValidRules(rules)
    ensures NormalizeText(rules, text) == Join(Words(rules, text))
    ensures Split(rules.isSpace, [], NormalizeText(rules, text)) == Words(rules, text)
  {
    hide Split, FoldText, Strip;
    StripKeepsWords(rules, text);
    FoldTextFolds(rules, text);
    SplitGivesWords(rules, [], FoldText(rules.fold, text));
    SplitUndoesJoin(rules.isSpace, Words(rules, text));
  }

  /** A text without spaces is one word; and the words on both sides of a space are all the words there are. */
  lemma NormalFormMeetsAtSpace(rules: TextRules, a: string, space: char, b: string)
    requires ValidRules(rules) && rules.isSpace(space)
    ensures NormalizeText(rules, a + [space] + b)
         == Join(Split(rules.isSpace, [], NormalizeText(rules, a)) + Split(rules.isSpace, [], NormalizeText(rules, b)))
    ensures a != [] && (forall c :: c in FoldText(rules.fold, a) ==> !rules.isSpace(c)) ==>
              NormalizeText(rules, a) == FoldText(rules.fold, a)
  {
    hide FoldText;
    NormalFormJoinsWords(rules, a);
    NormalFormJoinsWords(rules, b);
    NormalFormJoinsWords(rules, a + [space] + b);
    WordsMeetAtSpace(rules, a, space, b);
    hide NormalizeText;
    var folded := FoldText(rules.fold, a);
    if forall c :: c in folded ==> !rules.isSpace(c) {
      SplitReadsWord(rules.isSpace, [], folded, []);
      assert folded + [] == folded && [] + folded == folded;
    }
  }

  function WithoutSpaces(isSpace: char -> bool, text: string): string
    decreases text
  {
    if text == [] then [] else UnlessSpace(isSpace, text[0]) + WithoutSpaces(isSpace, text[1..])
  }

  function UnlessSpace(isSpace: char -> bool, c: char): string {
    if isSpace(c) then [] else [c]
  }

  lemma {:induction false} WithoutSpacesOfBoth(isSpace: char -> bool, a: string, b: string)
    ensures WithoutSpaces(isSpace, a + b) == WithoutSpaces(isSpace, a) + WithoutSpaces(isSpace, b)
    decreases a
  {
    hide UnlessSpace;
    if a == [] {
      assert a + b == b;
    } else {
      WithoutSpacesOfBoth(isSpace, a[1..], b);
      assert (a + b)[1..] == a[1..] + b;
      var first, rest := UnlessSpace(isSpace, a[0]), WithoutSpaces(isSpace, a[1..]);
      assert first + (rest + WithoutSpaces(isSpace, b)) == (first + rest) + WithoutSpaces(isSpace, b);
    }
  }

  lemma {:induction false} WordHasNoSpaces(isSpace: char -> bool, word: string)
    requires forall c :: c in word ==> !isSpace(c)
    ensures WithoutSpaces(isSpace, word) == word
    decreases word
  {
    if word != [] {
      assert word[0] in word;
      WordHasNoSpaces(isSpace, word[1..]);
    }
  }

  lemma JoinNext(word: string, words: seq<string>)
    ensures Join([word] + words) == if words == [] then word else word + " " + Join(words)
  {
    assert ([word] + words)[1..] == words;
  }

  lemma NothingWithoutSpaces(isSpace: char -> bool)
    requires isSpace(' ')
    ensures WithoutSpaces(isSpace, " ") == "" && WithoutSpaces(isSpace, "") == "" && Join([]) == ""
  {
    assert " "[1..] == "";
  }

  lemma JoinAfterWord(isSpace: char -> bool, word: string, words: seq<string>)
    requires isSpace(' ') && forall c :: c in word ==> !isSpace(c)
    ensures WithoutSpaces(isSpace, Join([word] + words)) == word + WithoutSpaces(isSpace, Join(words))
  {
    hide Join, WithoutSpaces;
    JoinNext(word, words);
    WordHasNoSpaces(isSpace, word);
    NothingWithoutSpaces(isSpace);
    if words != [] {
      WithoutSpacesOfBoth(isSpace, word + " ", Join(words));
      WithoutSpacesOfBoth(isSpace, word, " ");
    }
  }

  lemma {:induction false} SplitKeepsLetters(isSpace: char -> bool, current: string, text: string)
    requires isSpace(' ') && forall c :: c in current ==> !isSpace(c)
    ensures WithoutSpaces(isSpace, Join(Split(isSpace, current, text))) == current + WithoutSpaces(isSpace, text)
    decreases text
  {
    hide Join, WithoutSpaces;
    if text == [] {
      EndOfText(isSpace, current);
    } else {
      LettersNext(isSpace, text);
      var rest := WithoutSpaces(isSpace, text[1..]);
      if isSpace(text[0]) {
        SplitKeepsLetters(isSpace, [], text[1..]);
        var words := Split(isSpace, [], text[1..]);
        JoinAfterWord(isSpace, current, words);
        assert Split(isSpace, current, text) == if current == [] then words else [current] + words;
        assert [] + rest == rest;
      } else {
        SplitKeepsLetters(isSpace, current + [text[0]], text[1..]);
        assert current + [text[0]] + rest == current + ([text[0]] + rest);
      }
    }
  }

  lemma EndOfText(isSpace: char -> bool, current: string)
    requires isSpace(' ') && forall c :: c in current ==> !isSpace(c)
    ensures WithoutSpaces(isSpace, Join(Split(isSpace, current, []))) == current + WithoutSpaces(isSpace, [])
  {
    JoinAfterWord(isSpace, current, []);
    assert [current] + [] == [current];
  }

  lemma LettersNext(isSpace: char -> bool, text: string)
    requires text != []
    ensures WithoutSpaces(isSpace, text) == (if isSpace(text[0]) then [] else [text[0]]) + WithoutSpaces(isSpace, text[1..])
  {
  }

  /** Without its spaces the normal form is the folded text without its spaces. */
  lemma NormalFormKeepsLetters(rules: TextRules, text: string)
    requires ValidRules(rules)
    ensures WithoutSpaces(rules.isSpace, NormalizeText(rules, text)) == WithoutSpaces(rules.isSpace, FoldText(rules.fold, text))
  {
    hide Join, FoldText;
    NormalFormJoinsWords(rules, text);
    SplitKeepsLetters(rules.isSpace, [], FoldText(rules.fold, text));
  }

  // ---- Line items ----

  /** The text `str` gives for a decimal; it is never the one it gives for a missing value. */
  type DecimalText = text: string | text != "None" witness "0"

  datatype Item = Item(
    description: string,
    quantity: Option<DecimalText>,
    unitPrice: Option<DecimalText>,
    lineTotal: Option<DecimalText>)

  datatype RawItem = RawItem(
    description: string,
    quantity: Option<string>,
    unitPrice: Option<string>,
    lineTotal: Option<string>)

  /** How decimals are read, and the number each decimal stands for. */
  datatype DecimalRules = DecimalRules(read: string -> Option<DecimalText>, value: DecimalText -> real)

  function NormalizeDecimal(rules: DecimalRules, field: Option<string>): Option<DecimalText> {
    if field.None? then None else rules.read(field.value)
  }

  function NormalizeItem(text: TextRules, decimal: DecimalRules, item: RawItem): Item {
    Item(NormalizeText(text, item.description), NormalizeDecimal(decimal, item.quantity),
         NormalizeDecimal(decimal, item.unitPrice), NormalizeDecimal(decimal, item.lineTotal))
  }

  function Shown(number: Option<DecimalText>): string {
    if number.None? then "None" else number.value
  }

  function SortKey(item: Item): seq<string> {
    [item.description, Shown(item.quantity), Shown(item.unitPrice), Shown(item.lineTotal)]
  }

  const CHAR_LESS: (char, char) -> bool := (a, b) => a < b

  const STRING_LESS: (string, string) -> bool := Lexicographic(CHAR_LESS)

  const ITEM_LESS: (Item, Item) -> bool := (a, b) => Precedes(STRING_LESS, SortKey(a), SortKey(b))

  function Map<S, T>(f: S -> T, items: seq<S>): seq<T>
    decreases items
  {
    if items == [] then [] else Map(f, items[..|items| - 1]) + [f(items[|items| - 1])]
  }

  function NormalizeWith(text: TextRules, decimal: DecimalRules): RawItem -> Item {
    (item: RawItem) => NormalizeItem(text, decimal, item)
  }

  function NormalizeLineItems(text: TextRules, decimal: DecimalRules, items: seq<RawItem>): seq<Item> {
    Sorted(ITEM_LESS, Map(NormalizeWith(text, decimal), items))
  }

  /** The sort key tells any two normalised items apart. */
  lemma SortKeyIsInjective(a: Item, b: Item)
    requires SortKey(a) == SortKey(b)
    ensures a == b
  {
    assert SortKey(a)[0] == SortKey(b)[0] && SortKey(a)[1] == SortKey(b)[1];
    assert SortKey(a)[2] == SortKey(b)[2] && SortKey(a)[3] == SortKey(b)[3];
  }

  /** `a` comes before `b` in the order of character codes. */
  ghost predicate TextBefore(a: string, b: string) {
    exists k: nat :: k <= |a| && k < |b| && a[..k] == b[..k] && (k == |a| || a[k] < b[k])
  }

  /** `a` comes before `b` by description, then quantity, unit price and line total as texts. */
  ghost predicate ItemBefore(a: Item, b: Item) {
    || TextBefore(a.description, b.description)
    || (a.description == b.description
        && (|| TextBefore(Shown(a.quantity), Shown(b.quantity))
            || (a.quantity == b.quantity
                && (|| TextBefore(Shown(a.unitPrice), Shown(b.unitPrice))
                    || (a.unitPrice == b.unitPrice && TextBefore(Shown(a.lineTotal), Shown(b.lineTotal)))))))
  }

  lemma TextsAreCompared(a: string, b: string)
    ensures STRING_LESS(a, b) <==> TextBefore(a, b)
  {
    PrecedesMeans(CHAR_LESS, a, b);
    forall k: nat
      ensures DiffersBelow(CHAR_LESS, a, b, k)
              <==> k <= |a| && k < |b| && a[..k] == b[..k] && (k == |a| || a[k] < b[k])
    {
    }
  }

  lemma KeysAreCompared(a: seq<string>, b: seq<string>)
    requires |a| == 4 && |b| == 4
    ensures Precedes(STRING_LESS, a, b)
            <==> || STRING_LESS(a[0], b[0])
                 || (a[0] == b[0]
                     && (|| STRING_LESS(a[1], b[1])
                         || (a[1] == b[1] && (STRING_LESS(a[2], b[2]) || (a[2] == b[2] && STRING_LESS(a[3], b[3]))))))
  {
    var less := STRING_LESS;
    var a1, b1 := a[1..], b[1..];
    var a2, b2 := a1[1..], b1[1..];
    var a3, b3 := a2[1..], b2[1..];
    assert !Precedes(less, a3[1..], b3[1..]);
    assert Precedes(less, a3, b3) <==> less(a[3], b[3]);
    assert Precedes(less, a2, b2) <==> less(a[2], b[2]) || (a[2] == b[2] && Precedes(less, a3, b3));
    assert Precedes(less, a1, b1) <==> less(a[1], b[1]) || (a[1] == b[1] && Precedes(less, a2, b2));
  }

  lemma ItemsAreCompared(a: Item, b: Item)
    ensures ITEM_LESS(a, b) <==> ItemBefore(a, b)
  {
    hide TextBefore;
    KeysAreCompared(SortKey(a), SortKey(b));
    TextsAreCompared(a.description, b.description);
    TextsAreCompared(Shown(a.quantity), Shown(b.quantity));
    TextsAreCompared(Shown(a.unitPrice), Shown(b.unitPrice));
    TextsAreCompared(Shown(a.lineTotal), Shown(b.lineTotal));
  }

  lemma StringsAreOrdered()
    ensures StrictOrder(STRING_LESS)
  {
    assert StrictOrder(CHAR_LESS);
    LexicographicOrders(CHAR_LESS);
  }

  lemma ItemsAreOrdered()
    ensures StrictOrder(ITEM_LESS)
  {
    StringsAreOrdered();
    forall a, b
      ensures !ITEM_LESS(a, a) && (ITEM_LESS(a, b) || ITEM_LESS(b, a) || a == b)
    {
      PrecedesTotal(STRING_LESS, SortKey(a), SortKey(b));
      if SortKey(a) == SortKey(b) {
        SortKeyIsInjective(a, b);
      }
    }
    forall a, b, c | ITEM_LESS(a, b) && ITEM_LESS(b, c)
      ensures ITEM_LESS(a, c)
    {
      PrecedesTransitive(STRING_LESS, SortKey(a), SortKey(b), SortKey(c));
    }
  }

  lemma {:induction false} MapOfBoth<S, T>(f: S -> T, a: seq<S>, b: seq<S>)
    ensures Map(f, a + b) == Map(f, a) + Map(f, b)
    decreases b
  {
    if b == [] {
      assert a + b == a;
    } else {
      MapOfBoth(f, a, b[..|b| - 1]);
      assert (a + b)[..|a + b| - 1] == a + b[..|b| - 1];
    }
  }

  lemma MapOfOne<S, T>(f: S -> T, item: S)
    ensures Map(f, [item]) == [f(item)]
  {
    assert [item][..0] == [];
  }

  lemma MapWithout<S, T>(f: S -> T, items: seq<S>, i: nat)
    requires i < |items|
    ensures multiset(Map(f, items)) == multiset(Map(f, items[..i] + items[i + 1..])) + multiset{f(items[i])}
  {
    hide Map;
    var before, after := items[..i], items[i + 1..];
    assert items == before + [items[i]] + after;
    MapOfBoth(f, before + [items[i]], after);
    MapOfBoth(f, before, [items[i]]);
    MapOfBoth(f, before, after);
    MapOfOne(f, items[i]);
  }

  lemma {:induction false} MapPermuted<S, T>(f: S -> T, a: seq<S>, b: seq<S>)
    requires multiset(a) == multiset(b)
    ensures multiset(Map(f, a)) == multiset(Map(f, b))
    decreases a
  {
    assert |a| == |multiset(a)| == |multiset(b)| == |b|;
    if a != [] {
      var last := |a| - 1;
      assert a[last] in multiset(b);
      var i :| 0 <= i < |b| && b[i] == a[last];
      WithoutOne(a, last);
      WithoutOne(b, i);
      assert a[..last] + a[last + 1..] == a[..last];
      MapPermuted(f, a[..last], b[..i] + b[i + 1..]);
      MapWithout(f, b, i);
    }
  }

  /** The normal form of a list holds its normalised items, none before one that comes earlier. */
  lemma NormalFormIsSorted(text: TextRules, decimal: DecimalRules, items: seq<RawItem>)
    ensures multiset(NormalizeLineItems(text, decimal, items)) == multiset(Map(NormalizeWith(text, decimal), items))
    ensures
      var sorted := NormalizeLineItems(text, decimal, items);
      forall i, j :: 0 <= i < j < |sorted| ==> !ItemBefore(sorted[j], sorted[i])
  {
    ItemsAreOrdered();
    SortedSorts(ITEM_LESS, Map(NormalizeWith(text, decimal), items));
    var sorted := NormalizeLineItems(text, decimal, items);
    hide NormalizeLineItems, ItemBefore, Map;
    forall i, j | 0 <= i < j < |sorted|
      ensures !ItemBefore(sorted[j], sorted[i])
    {
      ItemsAreCompared(sorted[j], sorted[i]);
    }
  }

  /** Reordering the line items never changes their normal form. */
  lemma LineOrderIsIgnored(text: TextRules, decimal: DecimalRules, a: seq<RawItem>, b: seq<RawItem>)
    requires multiset(a) == multiset(b)
    ensures NormalizeLineItems(text, decimal, a) == NormalizeLineItems(text, decimal, b)
  {
    ItemsAreOrdered();
    var normalize := NormalizeWith(text, decimal);
    MapPermuted(normalize, a, b);
    PermutationsSortAlike(ITEM_LESS, Map(normalize, a), Map(normalize, b));
  }

  // ---- What the comparison decides ----

  datatype ItemValue = ItemValue(description: string, quantity: Option<real>, unitPrice: Option<real>, lineTotal: Option<real>)

  function NumberOf(value: DecimalText -> real, number: Option<DecimalText>): Option<real> {
    if number.None? then None else Some(value(number.value))
  }

  function ValueOf(value: DecimalText -> real): Item -> ItemValue {
    (item: Item) => ItemValue(item.description, NumberOf(value, item.quantity), NumberOf(value, item.unitPrice),
                              NumberOf(value, item.lineTotal))
  }

  /** Two lists of normalised items, sorted by text and then compared number by number. */
  predicate ComparesEqual(value: DecimalText -> real, a: seq<Item>, b: seq<Item>) {
    Map(ValueOf(value), Sorted(ITEM_LESS, a)) == Map(ValueOf(value), Sorted(ITEM_LESS, b))
  }

  /** What the comparison of the field `line_items` decides: both lists are normalised and sorted by text, then
      compared number by number. */
  predicate LineItemsEqual(text: TextRules, decimal: DecimalRules, expected: seq<RawItem>, actual: seq<RawItem>) {
    Map(ValueOf(decimal.value), NormalizeLineItems(text, decimal, expected))
    == Map(ValueOf(decimal.value), NormalizeLineItems(text, decimal, actual))
  }

  /** The values of the normalised items, in the list's own order. */
  function ValuesOf(text: TextRules, decimal: DecimalRules, items: seq<RawItem>): seq<ItemValue> {
    Map(ValueOf(decimal.value), Map(NormalizeWith(text, decimal), items))
  }

  /** Reordering either list never makes equal lists unequal. */
  lemma ReorderedListsAreEqual(text: TextRules, decimal: DecimalRules, a: seq<RawItem>, b: seq<RawItem>)
    requires multiset(a) == multiset(b)
    ensures LineItemsEqual(text, decimal, a, b)
  {
    LineOrderIsIgnored(text, decimal, a, b);
  }

  /** Both fields are missing or unreadable, or both read as the same number. */
  predicate ReadAlike(decimal: DecimalRules, a: Option<string>, b: Option<string>) {
    var x := if a.Some? then decimal.read(a.value) else None;
    var y := if b.Some? then decimal.read(b.value) else None;
    if x.Some? && y.Some? then decimal.value(x.value) == decimal.value(y.value) else x.None? && y.None?
  }

  /** The items differ at most in how their descriptions are spaced and cased and their numbers written. */
  predicate SameItem(text: TextRules, decimal: DecimalRules, a: RawItem, b: RawItem) {
    && NormalizeText(text, a.description) == NormalizeText(text, b.description)
    && ReadAlike(decimal, a.quantity, b.quantity)
    && ReadAlike(decimal, a.unitPrice, b.unitPrice)
    && ReadAlike(decimal, a.lineTotal, b.lineTotal)
  }

  lemma ValueOfItem(text: TextRules, decimal: DecimalRules, items: seq<RawItem>, i: nat)
    requires i < |items|
    ensures |ValuesOf(text, decimal, items)| == |items|
    ensures ValuesOf(text, decimal, items)[i] == ValueOf(decimal.value)(NormalizeItem(text, decimal, items[i]))
  {
    hide Map, ValueOf, NormalizeItem;
    var normalized := Map(NormalizeWith(text, decimal), items);
    MapIndex(NormalizeWith(text, decimal), items, i);
    MapIndex(ValueOf(decimal.value), normalized, i);
  }

  lemma ValuesCount(text: TextRules, decimal: DecimalRules, items: seq<RawItem>)
    ensures |ValuesOf(text, decimal, items)| == |items|
  {
    hide Map;
    MapLength(NormalizeWith(text, decimal), items);
    MapLength(ValueOf(decimal.value), Map(NormalizeWith(text, decimal), items));
  }

  lemma SameValueSameItem(text: TextRules, decimal: DecimalRules, a: RawItem, b: RawItem)
    ensures ValueOf(decimal.value)(NormalizeItem(text, decimal, a)) == ValueOf(decimal.value)(NormalizeItem(text, decimal, b))
            <==> SameItem(text, decimal, a, b)
  {
    hide NormalizeText;
  }

  /** Items of equal values can be found in each other's list. */
  lemma EqualValuesAreFound(text: TextRules, decimal: DecimalRules, a: seq<RawItem>, b: seq<RawItem>, i: nat)
    requires multiset(ValuesOf(text, decimal, a)) == multiset(ValuesOf(text, decimal, b)) && i < |a|
    ensures exists j :: 0 <= j < |b| && SameItem(text, decimal, a[i], b[j])
  {
    hide ValuesOf, ValueOf, NormalizeItem, SameItem;
    var x, y := ValuesOf(text, decimal, a), ValuesOf(text, decimal, b);
    ValueOfItem(text, decimal, a, i);
    assert x[i] in multiset(y);
    var j :| 0 <= j < |y| && y[j] == x[i];
    ValuesCount(text, decimal, b);
    ValueOfItem(text, decimal, b, j);
    SameValueSameItem(text, decimal, a[i], b[j]);
  }

  /** Lists that compare equal hold equal items, whatever their order: each item of one has its counterpart in the
      other, field by field. */
  lemma EqualListsHoldEqualItems(text: TextRules, decimal: DecimalRules, a: seq<RawItem>, b: seq<RawItem>)
    requires LineItemsEqual(text, decimal, a, b)
    ensures multiset(ValuesOf(text, decimal, a)) == multiset(ValuesOf(text, decimal, b))
    ensures forall i :: 0 <= i < |a| ==> exists j :: 0 <= j < |b| && SameItem(text, decimal, a[i], b[j])
  {
    EqualListsHoldEqualValues(text, decimal, a, b);
    forall i | 0 <= i < |a|
      ensures exists j :: 0 <= j < |b| && SameItem(text, decimal, a[i], b[j])
    {
      EqualValuesAreFound(text, decimal, a, b, i);
    }
  }

  lemma EqualListsHoldEqualValues(text: TextRules, decimal: DecimalRules, a: seq<RawItem>, b: seq<RawItem>)
    requires LineItemsEqual(text, decimal, a, b)
    ensures multiset(ValuesOf(text, decimal, a)) == multiset(ValuesOf(text, decimal, b))
  {
    var x, y := Map(NormalizeWith(text, decimal), a), Map(NormalizeWith(text, decimal), b);
    ItemsAreOrdered();
    SortedSorts(ITEM_LESS, x);
    SortedSorts(ITEM_LESS, y);
    MapPermuted(ValueOf(decimal.value), x, Sorted(ITEM_LESS, x));
    MapPermuted(ValueOf(decimal.value), y, Sorted(ITEM_LESS, y));
  }

  ghost predicate Drawn(numbers: set<DecimalText>, number: Option<DecimalText>) {
    number.Some? ==> number.value in numbers
  }

  /** All the items' numbers are written as one of `numbers`. */
  ghost predicate WrittenWith(numbers: set<DecimalText>, items: seq<Item>) {
    forall item :: item in items ==>
      Drawn(numbers, item.quantity) && Drawn(numbers, item.unitPrice) && Drawn(numbers, item.lineTotal)
  }

  /** Every number is written in one way only. */
  ghost predicate Canonical(value: DecimalText -> real, numbers: set<DecimalText>) {
    forall x, y :: x in numbers && y in numbers && value(x) == value(y) ==> x == y
  }

  lemma {:induction false} MapIndex<S, T>(f: S -> T, items: seq<S>, i: nat)
    requires i < |items|
    ensures |Map(f, items)| == |items| && Map(f, items)[i] == f(items[i])
    decreases items
  {
    if i < |items| - 1 {
      MapIndex(f, items[..|items| - 1], i);
    } else if i > 0 {
      MapIndex(f, items[..|items| - 1], i - 1);
    }
  }

  lemma CanonicalTells(value: DecimalText -> real, numbers: set<DecimalText>, items: seq<Item>, a: Item, b: Item)
    requires Canonical(value, numbers) && WrittenWith(numbers, items) && a in items && b in items
    requires ValueOf(value)(a) == ValueOf(value)(b)
    ensures a == b
  {
  }

  /** A canonical list contains an item as soon as it contains its value; taking the item away takes the value. */
  lemma FindByValue(value: DecimalText -> real, numbers: set<DecimalText>, item: Item, items: seq<Item>) returns (i: nat)
    requires Canonical(value, numbers) && WrittenWith(numbers, [item] + items)
    requires ValueOf(value)(item) in multiset(Map(ValueOf(value), items))
    ensures i < |items| && items[i] == item
    ensures multiset(Map(ValueOf(value), items[..i] + items[i + 1..]))
         == multiset(Map(ValueOf(value), items)) - multiset{ValueOf(value)(item)}
    ensures multiset(items[..i] + items[i + 1..]) == multiset(items) - multiset{item}
  {
    var f := ValueOf(value);
    i :| 0 <= i < |Map(f, items)| && Map(f, items)[i] == f(item);
    MapLength(f, items);
    MapIndex(f, items, i);
    CanonicalTells(value, numbers, [item] + items, item, items[i]);
    MapWithout(f, items, i);
    WithoutOne(items, i);
  }

  lemma WrittenWithout(numbers: set<DecimalText>, a: seq<Item>, b: seq<Item>, i: nat)
    requires a != [] && i < |b| && WrittenWith(numbers, a + b)
    ensures WrittenWith(numbers, a[..|a| - 1] + (b[..i] + b[i + 1..]))
    ensures WrittenWith(numbers, [a[|a| - 1]] + b)
  {
    assert forall item :: item in a[..|a| - 1] + (b[..i] + b[i + 1..]) ==> item in a + b;
    assert forall item :: item in [a[|a| - 1]] + b ==> item in a + b;
  }

  lemma {:induction false} EqualItemsHoldEqualTexts(value: DecimalText -> real, numbers: set<DecimalText>, a: seq<Item>, b: seq<Item>)
    requires Canonical(value, numbers) && WrittenWith(numbers, a + b)
    requires multiset(Map(ValueOf(value), a)) == multiset(Map(ValueOf(value), b))
    ensures multiset(a) == multiset(b)
    decreases a
  {
    hide Canonical, WrittenWith, ValueOf, Map;
    var f := ValueOf(value);
    MapLength(f, a);
    MapLength(f, b);
    assert |a| == |multiset(Map(f, a))| == |b|;
    if a != [] {
      var last := |a| - 1;
      WrittenWithout(numbers, a, b, 0);
      LastOf(f, a);
      var i := FindByValue(value, numbers, a[last], b);
      WrittenWithout(numbers, a, b, i);
      EqualItemsHoldEqualTexts(value, numbers, a[..last], b[..i] + b[i + 1..]);
      assert multiset(a[..last]) == multiset(b) - multiset{a[last]};
      assert b[i] in b;
    }
  }

  lemma LastOf<S, T>(f: S -> T, items: seq<S>)
    requires items != []
    ensures multiset(items) == multiset(items[..|items| - 1]) + multiset{items[|items| - 1]}
    ensures multiset(Map(f, items)) == multiset(Map(f, items[..|items| - 1])) + multiset{f(items[|items| - 1])}
  {
    hide Map;
    var last := |items| - 1;
    assert items[..last] + items[last + 1..] == items[..last];
    WithoutOne(items, last);
    MapWithout(f, items, last);
  }

  lemma {:induction false} MapLength<S, T>(f: S -> T, items: seq<S>)
    ensures |Map(f, items)| == |items|
    decreases items
  {
    if items != [] {
      MapLength(f, items[..|items| - 1]);
    }
  }

  /** The comparison is exact over these numerals: lists that hold equal items, in any order, compare equal. */
  ghost predicate IsExact(text: TextRules, decimal: DecimalRules, numbers: set<DecimalText>) {
    forall a, b ::
      && WrittenWith(numbers, Map(NormalizeWith(text, decimal), a) + Map(NormalizeWith(text, decimal), b))
      && multiset(ValuesOf(text, decimal, a)) == multiset(ValuesOf(text, decimal, b))
      ==> LineItemsEqual(text, decimal, a, b)
  }

  lemma CanonicalIsExact(text: TextRules, decimal: DecimalRules, numbers: set<DecimalText>)
    requires Canonical(decimal.value, numbers)
    ensures IsExact(text, decimal, numbers)
  {
    ItemsAreOrdered();
    forall a, b |
      && WrittenWith(numbers, Map(NormalizeWith(text, decimal), a) + Map(NormalizeWith(text, decimal), b))
      && multiset(ValuesOf(text, decimal, a)) == multiset(ValuesOf(text, decimal, b))
      ensures LineItemsEqual(text, decimal, a, b)
    {
      var x, y := Map(NormalizeWith(text, decimal), a), Map(NormalizeWith(text, decimal), b);
      EqualItemsHoldEqualTexts(decimal.value, numbers, x, y);
      PermutationsSortAlike(ITEM_LESS, x, y);
    }
  }

  lemma SortedPair(a: Item, b: Item)
    requires ITEM_LESS(a, b)
    ensures Sorted(ITEM_LESS, [a, b]) == [a, b] && Sorted(ITEM_LESS, [b, a]) == [a, b]
  {
    ItemsAreOrdered();
    assert IsSorted(ITEM_LESS, [a, b]);
    assert multiset([a, b]) == multiset([b, a]);
    SortedSorts(ITEM_LESS, [a, b]);
    SortedIsUnique(ITEM_LESS, Sorted(ITEM_LESS, [a, b]), [a, b]);
    PermutationsSortAlike(ITEM_LESS, [a, b], [b, a]);
  }

  lemma QuantityOrders(x: DecimalText, y: DecimalText, p: Option<DecimalText>, q: Option<DecimalText>)
    requires STRING_LESS(x, y)
    ensures ITEM_LESS(Item("", Some(x), p, None), Item("", Some(y), q, None))
  {
    var a, b := SortKey(Item("", Some(x), p, None)), SortKey(Item("", Some(y), q, None));
    assert a[1..][0] == x && b[1..][0] == y;
    assert Precedes(STRING_LESS, a[1..], b[1..]);
  }

  lemma NumeralsAgree(value: DecimalText -> real, numbers: set<DecimalText>, x: DecimalText, y: DecimalText)
    requires x in numbers && y in numbers && value(x) == value(y)
    ensures
      var a0, a1 := Item("", Some(x), None, None), Item("", Some(y), Some(x), None);
      var b0, b1 := Item("", Some(x), Some(x), None), Item("", Some(y), None, None);
      && ValueOf(value)(a0) == ValueOf(value)(b1) && ValueOf(value)(a1) == ValueOf(value)(b0)
      && ValueOf(value)(a0) != ValueOf(value)(b0)
      && WrittenWith(numbers, [a0, a1] + [b0, b1])
  {
  }

  /** Two ways to write one number are enough for two lists of equal items to compare different. */
  lemma TwoNumeralsMislead(value: DecimalText -> real, numbers: set<DecimalText>, x: DecimalText, y: DecimalText)
    requires x in numbers && y in numbers && value(x) == value(y) && STRING_LESS(x, y)
    ensures
      var a := [Item("", Some(x), None, None), Item("", Some(y), Some(x), None)];
      var b := [Item("", Some(x), Some(x), None), Item("", Some(y), None, None)];
      && WrittenWith(numbers, a + b)
      && multiset(Map(ValueOf(value), a)) == multiset(Map(ValueOf(value), b))
      && !ComparesEqual(value, a, b)
  {
    var a0, a1 := Item("", Some(x), None, None), Item("", Some(y), Some(x), None);
    var b0, b1 := Item("", Some(x), Some(x), None), Item("", Some(y), None, None);
    var f := ValueOf(value);
    QuantityOrders(x, y, None, Some(x));
    QuantityOrders(x, y, Some(x), None);
    NumeralsAgree(value, numbers, x, y);
    hide ValueOf, WrittenWith;
    SortedPair(a0, a1);
    SortedPair(b0, b1);
    PairValues(f, [a0, a1]);
    PairValues(f, [b0, b1]);
  }

  /** Every numeral is read back as itself. */
  ghost predicate ReadsBack(decimal: DecimalRules, numbers: set<DecimalText>) {
    forall x :: x in numbers ==> decimal.read(x) == Some(x)
  }

  function Unread(number: Option<DecimalText>): Option<string> {
    if number.None? then None else Some(number.value)
  }

  /** A nameless item as it comes in. */
  function Raw(quantity: DecimalText, unitPrice: Option<DecimalText>): RawItem {
    RawItem("", Some(quantity), Unread(unitPrice), None)
  }

  lemma RawIsRead(text: TextRules, decimal: DecimalRules, numbers: set<DecimalText>, quantity: DecimalText,
                  unitPrice: Option<DecimalText>)
    requires ReadsBack(decimal, numbers) && quantity in numbers && Drawn(numbers, unitPrice)
    ensures NormalizeWith(text, decimal)(Raw(quantity, unitPrice)) == Item("", Some(quantity), unitPrice, None)
  {
    assert NormalizeText(text, "") == "";
  }

  lemma TwoNumeralsMisleadLists(text: TextRules, decimal: DecimalRules, numbers: set<DecimalText>, x: DecimalText,
                                y: DecimalText)
    requires ReadsBack(decimal, numbers)
    requires x in numbers && y in numbers && decimal.value(x) == decimal.value(y) && STRING_LESS(x, y)
    ensures !IsExact(text, decimal, numbers)
  {
    var a := [Raw(x, None), Raw(y, Some(x))];
    var b := [Raw(x, Some(x)), Raw(y, None)];
    RawIsRead(text, decimal, numbers, x, None);
    RawIsRead(text, decimal, numbers, y, Some(x));
    RawIsRead(text, decimal, numbers, x, Some(x));
    RawIsRead(text, decimal, numbers, y, None);
    hide NormalizeWith, ValueOf, WrittenWith, Raw;
    PairValues(NormalizeWith(text, decimal), a);
    PairValues(NormalizeWith(text, decimal), b);
    TwoNumeralsMislead(decimal.value, numbers, x, y);
    assert !LineItemsEqual(text, decimal, a, b);
  }

  lemma PairValues<S, T>(f: S -> T, pair: seq<S>)
    requires |pair| == 2
    ensures Map(f, pair) == [f(pair[0]), f(pair[1])]
  {
    assert Map(f, pair[..1]) == [f(pair[0])];
  }

  /** Over numerals that are read back as themselves, the comparison ignores how items are ordered exactly when no
      number is written in two ways: sorting goes by text (`1.5` before `1.50`), while equality goes by number. */
  lemma ExactExactlyWhenCanonical(text: TextRules, decimal: DecimalRules, numbers: set<DecimalText>)
    requires ReadsBack(decimal, numbers)
    ensures IsExact(text, decimal, numbers) <==> Canonical(decimal.value, numbers)
  {
    hide IsExact, ReadsBack;
    StringsAreOrdered();
    forall x, y | x in numbers && y in numbers && decimal.value(x) == decimal.value(y) && x != y
      ensures !IsExact(text, decimal, numbers)
    {
      if STRING_LESS(x, y) {
        TwoNumeralsMisleadLists(text, decimal, numbers, x, y);
      } else {
        TwoNumeralsMisleadLists(text, decimal, numbers, y, x);
      }
    }
    if Canonical(decimal.value, numbers) {
      CanonicalIsExact(text, decimal, numbers);
    }
  }
}
