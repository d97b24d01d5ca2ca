/** Turning a metric's name into one the tracking server accepts. */
module MetricNames {
  /** `isAlnum` stands for the character test of the host language. */
  predicate IsAllowed(isAlnum: char -> bool, c: char) {
    isAlnum(c) || c in {'_', '-', '.'}
  }

  function Clean(isAlnum: char -> bool, name: string): string
    decreases name
  {
    if name == "" then ""
    else Clean(isAlnum, name[..|name| - 1]) + [if IsAllowed(isAlnum, name[|name| - 1]) then name[|name| - 1] else '_']
  }

  predicate HasDouble(text: string) {
    exists i :: 0 <= i < |text| - 1 && text[i] == '_' && text[i + 1] == '_'
  }

  /** `replace("__", "_")`: from left to right, without overlaps. */
  function ReplaceDoubles(text: string): (result: string)
    ensures |result| <= |text|
    ensures HasDouble(text) ==> |result| < |text|
  {
    if |text| < 2 then text
    else if text[0] == '_' && text[1] == '_' then "_" + ReplaceDoubles(text[2..])
    else
      assert HasDouble(text) ==> HasDouble(text[1..]) by {
        if HasDouble(text) {
          var i :| 0 <= i < |text| - 1 && text[i] == '_' && text[i + 1] == '_';
          assert text[1..][i - 1] == '_' && text[1..][i] == '_';
        }
      }
      [text[0]] + ReplaceDoubles(text[1..])
  }

  /** Every run of underscores shortened to one. */
  function Squeeze(text: string): string {
    if |text| < 2 then text
    else if text[0] == '_' && text[1] == '_' then Squeeze(text[1..])
    else [text[0]] + Squeeze(text[1..])
  }

  function StripUnderscores(text: string): string {
    if text == "" then ""
    else if text[0] == '_' then StripUnderscores(text[1..])
    else if text[|text| - 1] == '_' then StripUnderscores(text[..|text| - 1])
    else text
  }

  function Sanitized(isAlnum: char -> bool, name: string): string {
    var stripped := StripUnderscores(Squeeze(Clean(isAlnum, name)));
    if stripped == "" then "metric" else stripped
  }

  lemma {:induction false} SqueezeHead(text: string)
    requires text != ""
    ensures Squeeze(text) != "" && Squeeze(text)[0] == text[0]
  {
    if |text| >= 2 && text[0] == '_' && text[1] == '_' {
      SqueezeHead(text[1..]);
    }
  }

  /** One round of replacing never changes what squeezing gives. */
  lemma {:induction false} ReplacingKeepsSqueeze(text: string)
    ensures Squeeze(ReplaceDoubles(text)) == Squeeze(text)
    ensures text != "" ==> ReplaceDoubles(text) != "" && ReplaceDoubles(text)[0] == text[0]
  {
    if |text| >= 2 {
      var next := if text[0] == '_' && text[1] == '_' then text[2..] else text[1..];
      var replaced := ReplaceDoubles(next);
      ReplacingKeepsSqueeze(next);
      assert ReplaceDoubles(text) == [text[0]] + replaced;
      assert ([text[0]] + replaced)[1..] == replaced;
      if next != text[1..] {
        assert text[1..][1..] == next;
      }
    }
  }

  lemma {:induction false} SqueezedStays(text: string)
    requires !HasDouble(text)
    ensures Squeeze(text) == text
  {
    if |text| >= 2 {
      TailHasNone(text);
      SqueezedStays(text[1..]);
    }
  }

  lemma TailHasNone(text: string)
    requires !HasDouble(text) && text != ""
    ensures !HasDouble(text[1..]) && !HasDouble(text[..|text| - 1])
  {
    forall i | 0 <= i < |text[1..]| - 1
      ensures text[1..][i] != '_' || text[1..][i + 1] != '_'
    {
      assert text[i + 1] == text[1..][i] && text[i + 1 + 1] == text[1..][i + 1];
    }
  }

  lemma {:induction false} SqueezeHasNone(text: string)
    ensures !HasDouble(Squeeze(text))
    ensures forall c :: c in Squeeze(text) ==> c in text
  {
    if |text| >= 2 {
      SqueezeHasNone(text[1..]);
      SqueezeHead(text[1..]);
    }
  }

  method SanitizeMetricName(isAlnum: char -> bool, name: string) returns (result: string)
    ensures result == Sanitized(isAlnum, name)
  {
    var cleaned := "";
    for i := 0 to |name|
      invariant cleaned == Clean(isAlnum, name[..i])
    {
      assert name[..i + 1][..i] == name[..i];
      if isAlnum(name[i]) || name[i] in {'_', '-', '.'} {
        cleaned := cleaned + [name[i]];
      } else {
        cleaned := cleaned + ['_'];
      }
    }
    assert name[..|name|] == name;
    result := cleaned;
    while HasDouble(result)
      invariant Squeeze(result) == Squeeze(cleaned)
      decreases |result|
    {
      ReplacingKeepsSqueeze(result);
      result := ReplaceDoubles(result);
    }
    SqueezedStays(result);
    result := StripUnderscores(result);
    if result == "" {
      result := "metric";
    }
  }

  // ---- What a sanitised name looks like ----

  ghost predicate IsSanitary(isAlnum: char -> bool, name: string) {
    && name != ""
    && (forall c :: c in name ==> IsAllowed(isAlnum, c))
    && !HasDouble(name)
    && name[0] != '_' && name[|name| - 1] != '_'
  }

  lemma {:induction false} CleanAllows(isAlnum: char -> bool, name: string)
    ensures forall c :: c in Clean(isAlnum, name) ==> IsAllowed(isAlnum, c)
    decreases name
  {
    if name != "" {
      CleanAllows(isAlnum, name[..|name| - 1]);
    }
  }

  lemma {:induction false} CleanStays(isAlnum: char -> bool, name: string)
    requires forall c :: c in name ==> IsAllowed(isAlnum, c)
    ensures Clean(isAlnum, name) == name
    decreases name
  {
    if name != "" {
      CleanStays(isAlnum, name[..|name| - 1]);
      assert name[|name| - 1] in name;
    }
  }

  lemma {:induction false} StripTidies(text: string)
    requires !HasDouble(text)
    ensures !HasDouble(StripUnderscores(text))
    ensures forall c :: c in StripUnderscores(text) ==> c in text
    ensures StripUnderscores(text) != "" ==>
              StripUnderscores(text)[0] != '_' && StripUnderscores(text)[|StripUnderscores(text)| - 1] != '_'
  {
    if text != "" {
      TailHasNone(text);
      if text[0] == '_' {
        StripTidies(text[1..]);
      } else if text[|text| - 1] == '_' {
        StripTidies(text[..|text| - 1]);
      }
    }
  }

  ghost predicate LettersAreAlnum(isAlnum: char -> bool) {
    forall c :: c in "metric" ==> isAlnum(c)
  }

  lemma MetricIsSanitary(isAlnum: char -> bool)
    requires LettersAreAlnum(isAlnum)
    ensures IsSanitary(isAlnum, "metric")
  {
  }

  /** Every name is made sanitary, and the names left alone are exactly the sanitary ones; so sanitising twice
      changes no more than sanitising once. */
  lemma SanitizingSanitizes(isAlnum: char -> bool, name: string)
    requires LettersAreAlnum(isAlnum)
    ensures IsSanitary(isAlnum, Sanitized(isAlnum, name))
    ensures Sanitized(isAlnum, name) == name <==> IsSanitary(isAlnum, name)
    ensures Sanitized(isAlnum, Sanitized(isAlnum, name)) == Sanitized(isAlnum, name)
  {
    ResultIsSanitary(isAlnum, name);
    SanitaryStays(isAlnum, Sanitized(isAlnum, name));
    if IsSanitary(isAlnum, name) {
      SanitaryStays(isAlnum, name);
    }
  }

  // ---- What is kept of a name ----

  /** The characters of a name that stay in it: the allowed ones, but for underscores. */
  function Kept(isAlnum: char -> bool, name: string): string
    decreases name
  {
    if name == "" then "" else KeptOf(isAlnum, name[0]) + Kept(isAlnum, name[1..])
  }

  function KeptOf(isAlnum: char -> bool, c: char): string {
    if IsAllowed(isAlnum, c) && c != '_' then [c] else ""
  }

  lemma {:induction false} KeptOfBoth(isAlnum: char -> bool, a: string, b: string)
    ensures Kept(isAlnum, a + b) == Kept(isAlnum, a) + Kept(isAlnum, b)
    decreases a
  {
    hide KeptOf;
    if a == "" {
      assert a + b == b;
    } else {
      KeptOfBoth(isAlnum, a[1..], b);
      assert (a + b)[1..] == a[1..] + b;
      var first, rest := KeptOf(isAlnum, a[0]), Kept(isAlnum, a[1..]);
      assert first + (rest + Kept(isAlnum, b)) == (first + rest) + Kept(isAlnum, b);
    }
  }

  lemma KeptOfOne(isAlnum: char -> bool, c: char)
    ensures Kept(isAlnum, [c]) == KeptOf(isAlnum, c)
  {
    assert [c][1..] == "";
  }

  lemma {:induction false} CleanKeeps(isAlnum: char -> bool, name: string)
    ensures Kept(isAlnum, Clean(isAlnum, name)) == Kept(isAlnum, name)
    decreases name
  {
    if name != "" {
      hide Kept;
      var front, last := name[..|name| - 1], name[|name| - 1];
      CleanKeeps(isAlnum, front);
      assert name == front + [last];
      KeptOfBoth(isAlnum, front, [last]);
      var cleaned := if IsAllowed(isAlnum, last) then last else '_';
      KeptOfBoth(isAlnum, Clean(isAlnum, front), [cleaned]);
      KeptOfOne(isAlnum, last);
      KeptOfOne(isAlnum, cleaned);
    }
  }

  lemma {:induction false} SqueezeKeeps(isAlnum: char -> bool, text: string)
    ensures Kept(isAlnum, Squeeze(text)) == Kept(isAlnum, text)
    decreases text
  {
    if |text| >= 2 {
      SqueezeKeeps(isAlnum, text[1..]);
      assert ([text[0]] + Squeeze(text[1..]))[1..] == Squeeze(text[1..]);
    }
  }

  lemma {:induction false} StripKeeps(isAlnum: char -> bool, text: string)
    ensures Kept(isAlnum, StripUnderscores(text)) == Kept(isAlnum, text)
    decreases text
  {
    if text != "" {
      var last := |text| - 1;
      if text[0] == '_' {
        StripKeeps(isAlnum, text[1..]);
      } else if text[last] == '_' {
        StripKeeps(isAlnum, text[..last]);
        assert text == text[..last] + [text[last]];
        KeptOfBoth(isAlnum, text[..last], [text[last]]);
        KeptOfOne(isAlnum, text[last]);
      }
    }
  }

  lemma FirstIsKept(isAlnum: char -> bool, text: string)
    requires text != "" && text[0] != '_' && IsAllowed(isAlnum, text[0])
    ensures Kept(isAlnum, text) != ""
  {
  }

  /** The sanitised name keeps the allowed characters of the name, in order, and adds nothing to them but
      underscores; a name that has none becomes `metric`. */
  lemma SanitizingKeeps(isAlnum: char -> bool, name: string)
    requires LettersAreAlnum(isAlnum)
    ensures Kept(isAlnum, name) == "" ==> Sanitized(isAlnum, name) == "metric"
    ensures Kept(isAlnum, name) != "" ==> Kept(isAlnum, Sanitized(isAlnum, name)) == Kept(isAlnum, name)
  {
    var cleaned := Clean(isAlnum, name);
    var stripped := StripUnderscores(Squeeze(cleaned));
    CleanKeeps(isAlnum, name);
    SqueezeKeeps(isAlnum, cleaned);
    StripKeeps(isAlnum, Squeeze(cleaned));
    CleanAllows(isAlnum, name);
    SqueezeHasNone(cleaned);
    StripTidies(Squeeze(cleaned));
    if stripped != "" {
      assert stripped[0] in stripped;
      FirstIsKept(isAlnum, stripped);
    }
  }

  lemma ResultIsSanitary(isAlnum: char -> bool, name: string)
    requires LettersAreAlnum(isAlnum)
    ensures IsSanitary(isAlnum, Sanitized(isAlnum, name))
  {
    var cleaned := Clean(isAlnum, name);
    CleanAllows(isAlnum, name);
    SqueezeHasNone(cleaned);
    StripTidies(Squeeze(cleaned));
    MetricIsSanitary(isAlnum);
  }

  lemma SanitaryStays(isAlnum: char -> bool, name: string)
    requires IsSanitary(isAlnum, name)
    ensures Sanitized(isAlnum, name) == name
  {
    CleanStays(isAlnum, name);
    SqueezedStays(name);
  }
}
