/** The search box: conditions joined by AND and OR, with quotation marks around words to take literally. */
module SearchCondition {
  import opened Common

  /** Alternatives, each a list of texts that must all occur. */
  type Alternatives = seq<seq<string>>

  datatype Outcome = Conditions(groups: Alternatives) | MissingSide | OpenQuote | MissingCondition

  const QUOTE: char := '\"'

  predicate Space(c: char) {
    c == ' ' || c == '\t' || c == '\r' || c == '\n'
  }

  function StripLeft(s: string): string {
    if s != "" && Space(s[0]) then StripLeft(s[1..]) else s
  }

  function StripRight(s: string): string {
    if s != "" && Space(s[|s| - 1]) then StripRight(s[..|s| - 1]) else s
  }

  function Strip(s: string): string {
    StripRight(StripLeft(s))
  }

  predicate SameLetter(c: char, upper: char) {
    c == upper || c as int == upper as int + 32
  }

  predicate Reads(rest: string, word: string) {
    && |word| <= |rest|
    && (forall k :: 0 <= k < |word| ==> SameLetter(rest[k], word[k]))
    && (|rest| == |word| || Space(rest[|word|]))
  }

  /** The length of the operator that starts here: a whole word after a space, outside quotation marks. */
  function Operator(prev: Option<char>, rest: string, quoted: bool): (length: nat)
    ensures length <= |rest|
  {
    if quoted || (prev.Some? && !Space(prev.value)) then 0
    else if Reads(rest, "AND") then 3
    else if Reads(rest, "OR") then 2
    else 0
  }

  function WithCondition(groups: Alternatives, condition: string): (longer: Alternatives)
    requires groups != []
    ensures |longer| == |groups|
  {
    groups[|groups| - 1 := groups[|groups| - 1] + [condition]]
  }

  /** Reading on after `prev`, with what was collected so far. */
  function Scan(prev: Option<char>, rest: string, groups: Alternatives, parts: string, quoted: bool): Outcome
    requires groups != []
    decreases |rest|
  {
    var operator := Operator(prev, rest, quoted);
    if rest == "" then
      if quoted then OpenQuote
      else if Strip(parts) == "" then MissingCondition
      else Conditions(WithCondition(groups, Strip(parts)))
    else if rest[0] == QUOTE then Scan(Some(QUOTE), rest[1..], groups, parts, !quoted)
    else if operator > 0 then
      if Strip(parts) == "" then MissingSide
      else
        var longer := WithCondition(groups, Strip(parts));
        Scan(Some(rest[operator - 1]), rest[operator..], if operator == 2 then longer + [[]] else longer, "", quoted)
    else Scan(Some(rest[0]), rest[1..], groups, parts + [rest[0]], quoted)
  }

  function Parsed(term: string): Outcome {
    Scan(None, term, [[]], "", false)
  }

  lemma ScanEnd(prev: Option<char>, groups: Alternatives, parts: string, quoted: bool)
    requires groups != []
    ensures Scan(prev, "", groups, parts, quoted) ==
              if quoted then OpenQuote
              else if Strip(parts) == "" then MissingCondition
              else Conditions(WithCondition(groups, Strip(parts)))
  {
    hide Strip, Operator, WithCondition;
  }

  /** One step of reading. */
  lemma ScanStep(prev: Option<char>, rest: string, groups: Alternatives, parts: string, quoted: bool)
    requires groups != [] && rest != ""
    ensures var operator, scan := Operator(prev, rest, quoted), Scan(prev, rest, groups, parts, quoted);
            && (rest[0] == QUOTE ==> scan == Scan(Some(QUOTE), rest[1..], groups, parts, !quoted))
            && (rest[0] != QUOTE && operator == 0 ==> scan == Scan(Some(rest[0]), rest[1..], groups, parts + [rest[0]], quoted))
            && (rest[0] != QUOTE && operator > 0 ==>
                  if Strip(parts) == "" then scan == MissingSide
                  else
                    var longer := WithCondition(groups, Strip(parts));
                    scan == Scan(Some(rest[operator - 1]), rest[operator..], if operator == 2 then longer + [[]] else longer, "",
                                 quoted))
  {
    hide Strip, Operator, WithCondition;
  }

  method Parse(term: string) returns (outcome: Outcome)
    ensures outcome == Parsed(term)
  {
    hide Strip, Operator, WithCondition, Scan;
    var groups: Alternatives := [[]];
    var parts, quoted, i := "", false, 0;
    assert term[0..] == term;
    while i < |term|
      invariant 0 <= i <= |term| && groups != []
      invariant Scan(if i == 0 then None else Some(term[i - 1]), term[i..], groups, parts, quoted) == Parsed(term)
    {
      var rest := term[i..];
      ScanStep(if i == 0 then None else Some(term[i - 1]), rest, groups, parts, quoted);
      assert rest[1..] == term[i + 1..];
      if term[i] == QUOTE {
        quoted := !quoted;
        i := i + 1;
        continue;
      }
      var operator := Operator(if i == 0 then None else Some(term[i - 1]), rest, quoted);
      if operator > 0 {
        if Strip(parts) == "" {
          return MissingSide;
        }
        groups := WithCondition(groups, Strip(parts));
        parts := "";
        if operator == 2 {
          groups := groups + [[]];
        }
        assert rest[operator..] == term[i + operator..] && rest[operator - 1] == term[i + operator - 1];
        i := i + operator;
      } else {
        parts := parts + [term[i]];
        i := i + 1;
      }
    }
    assert term[i..] == "";
    ScanEnd(if i == 0 then None else Some(term[i - 1]), groups, parts, quoted);
    if quoted {
      return OpenQuote;
    }
    if Strip(parts) == "" {
      return MissingCondition;
    }
    return Conditions(WithCondition(groups, Strip(parts)));
  }

  // ----- What is read -----

  predicate Unquoted(s: string) {
    forall k :: 0 <= k < |s| ==> s[k] != QUOTE
  }

  /** A text as conditions hold it: not empty, without spaces around it and without quotation marks. */
  predicate Phrase(s: string) {
    s != "" && Strip(s) == s && Unquoted(s)
  }

  predicate Phrases(group: seq<string>) {
    forall k :: 0 <= k < |group| ==> Phrase(group[k])
  }

  predicate WellFormed(groups: Alternatives) {
    groups != [] && forall g :: 0 <= g < |groups| ==> groups[g] != [] && Phrases(groups[g])
  }

  /** All groups but the last are complete. */
  predicate Growing(groups: Alternatives) {
    && groups != [] && Phrases(groups[|groups| - 1])
    && forall g :: 0 <= g < |groups| - 1 ==> groups[g] != [] && Phrases(groups[g])
  }

  lemma {:induction false} StripsToPart(s: string)
    ensures exists i, j :: 0 <= i <= j <= |s| && Strip(s) == s[i..j]
    ensures Strip(Strip(s)) == Strip(s)
  {
    var i := LeftPart(s);
    var j := RightPart(s[i..]);
    assert s[i..][..j] == s[i..i + j];
    var t := Strip(s);
    if t != "" {
      assert t[0] == s[i..][0];
    }
  }

  lemma {:induction false} LeftPart(s: string) returns (i: nat)
    ensures i <= |s| && StripLeft(s) == s[i..] && (i < |s| ==> !Space(s[i]))
  {
    i := 0;
    if s != "" && Space(s[0]) {
      var rest := LeftPart(s[1..]);
      i := rest + 1;
      assert s[1..][rest..] == s[i..];
    }
  }

  lemma {:induction false} RightPart(s: string) returns (j: nat)
    ensures j <= |s| && StripRight(s) == s[..j] && (j > 0 ==> !Space(s[j - 1]))
  {
    j := |s|;
    if s != "" && Space(s[|s| - 1]) {
      j := RightPart(s[..|s| - 1]);
      assert s[..|s| - 1][..j] == s[..j];
    }
  }

  lemma StrippedIsPhrase(parts: string)
    requires Unquoted(parts) && Strip(parts) != ""
    ensures Phrase(Strip(parts))
  {
    StripsToPart(parts);
  }

  lemma ConditionAdded(groups: Alternatives, condition: string)
    requires Growing(groups) && Phrase(condition)
    ensures Growing(WithCondition(groups, condition)) && WellFormed(WithCondition(groups, condition))
    ensures Growing(WithCondition(groups, condition) + [[]])
  {
    hide Phrase;
    var longer := WithCondition(groups, condition);
    var last := |groups| - 1;
    assert longer[last] == groups[last] + [condition];
    assert forall g :: 0 <= g < last ==> longer[g] == groups[g];
  }

  lemma {:induction false} ScanIsWellFormed(prev: Option<char>, rest: string, groups: Alternatives, parts: string, quoted: bool)
    requires Growing(groups) && Unquoted(parts)
    ensures var outcome := Scan(prev, rest, groups, parts, quoted);
            outcome.Conditions? ==> WellFormed(outcome.groups)
    decreases |rest|
  {
    hide Strip, Phrase, Growing, WellFormed, Reads;
    if Strip(parts) != "" {
      StrippedIsPhrase(parts);
      ConditionAdded(groups, Strip(parts));
    }
    assert groups != [] by {
      GrowingHasGroup(groups);
    }
    if rest != "" {
      var operator := Operator(prev, rest, quoted);
      if rest[0] == QUOTE {
        ScanIsWellFormed(Some(QUOTE), rest[1..], groups, parts, !quoted);
      } else if operator > 0 {
        if Strip(parts) != "" {
          var longer := WithCondition(groups, Strip(parts));
          ScanIsWellFormed(Some(rest[operator - 1]), rest[operator..], if operator == 2 then longer + [[]] else longer, "", quoted);
        }
      } else {
        ScanIsWellFormed(Some(rest[0]), rest[1..], groups, parts + [rest[0]], quoted);
      }
    }
  }

  /** The string has an odd number of quotation marks. */
  predicate OddQuotes(s: string) {
    s != "" && (s[0] == QUOTE) != OddQuotes(s[1..])
  }

  lemma {:induction false} OddQuotesAfter(rest: string, length: nat)
    requires length <= |rest| && forall k :: 0 <= k < length ==> rest[k] != QUOTE
    ensures OddQuotes(rest[length..]) == OddQuotes(rest)
  {
    if length > 0 {
      OddQuotesAfter(rest[1..], length - 1);
      assert rest[1..][length - 1..] == rest[length..];
    } else {
      assert rest[0..] == rest;
    }
  }

  lemma OperatorIsLetters(prev: Option<char>, rest: string, quoted: bool)
    ensures forall k :: 0 <= k < Operator(prev, rest, quoted) ==> rest[k] != QUOTE
  {
  }

  lemma {:induction false} ScanCountsQuotes(prev: Option<char>, rest: string, groups: Alternatives, parts: string, quoted: bool)
    requires groups != []
    ensures var outcome := Scan(prev, rest, groups, parts, quoted);
            !outcome.MissingSide? ==> (outcome.OpenQuote? <==> OddQuotes(rest) != quoted)
    decreases |rest|
  {
    hide Strip, Operator, WithCondition;
    if rest != "" {
      var operator := Operator(prev, rest, quoted);
      if rest[0] == QUOTE {
        ScanCountsQuotes(Some(QUOTE), rest[1..], groups, parts, !quoted);
      } else if operator > 0 {
        OperatorIsLetters(prev, rest, quoted);
        OddQuotesAfter(rest, operator);
        if Strip(parts) != "" {
          var longer := WithCondition(groups, Strip(parts));
          ScanCountsQuotes(Some(rest[operator - 1]), rest[operator..], if operator == 2 then longer + [[]] else longer, "",
                           quoted);
        }
      } else {
        ScanCountsQuotes(Some(rest[0]), rest[1..], groups, parts + [rest[0]], quoted);
      }
    }
  }

  /** Unless a side of an operator is missing, a search is refused for an open quotation mark exactly when their
      number is odd. */
  lemma OpenQuoteIffOdd(term: string)
    requires !Parsed(term).MissingSide?
    ensures Parsed(term).OpenQuote? <==> OddQuotes(term)
  {
    ScanCountsQuotes(None, term, [[]], "", false);
  }

  lemma GrowingHasGroup(groups: Alternatives)
    requires Growing(groups)
    ensures groups != []
  {
  }

  // ----- Which words are operators -----

  predicate Letters(term: string, k: nat, upper: string, lower: string)
    requires |upper| == |lower|
  {
    k + |upper| <= |term| && forall j | 0 <= j < |upper| :: term[k + j] in {upper[j], lower[j]}
  }

  /** Position k is between words. */
  predicate Gap(term: string, k: nat) {
    k >= |term| || term[k] in {' ', '\t', '\r', '\n'}
  }

  /** The whole word AND starts at k, in any case. */
  predicate AndAt(term: string, k: nat) {
    (k == 0 || Gap(term, k - 1)) && Letters(term, k, "AND", "and") && Gap(term, k + 3)
  }

  predicate OrAt(term: string, k: nat) {
    (k == 0 || Gap(term, k - 1)) && Letters(term, k, "OR", "or") && Gap(term, k + 2)
  }

  function Before(term: string, k: nat): Option<char>
    requires k <= |term|
  {
    if k == 0 then None else Some(term[k - 1])
  }

  /** Outside quotation marks exactly the whole words AND and OR are operators. */
  lemma OperatorIff(term: string, k: nat, quoted: bool)
    requires k <= |term|
    ensures Operator(Before(term, k), term[k..], quoted) ==
              if quoted then 0 else if AndAt(term, k) then 3 else if OrAt(term, k) then 2 else 0
  {
    ReadsWord(term, k, "AND", "and");
    ReadsWord(term, k, "OR", "or");
    assert "AND"[0] == 'A' && "and"[0] == 'a' && "OR"[0] == 'O' && "or"[0] == 'o';
  }

  lemma ReadsWord(term: string, k: nat, upper: string, lower: string)
    requires k <= |term| && |upper| == |lower|
    requires forall j | 0 <= j < |upper| :: lower[j] as int == upper[j] as int + 32
    ensures Reads(term[k..], upper) <==> Letters(term, k, upper, lower) && Gap(term, k + |upper|)
  {
    var rest := term[k..];
    assert |upper| <= |rest| ==> forall j | 0 <= j < |upper| :: rest[j] == term[k + j];
  }

  /** A text without quotation marks and without these words is one condition, whatever words contain AND or OR. */
  lemma PlainTextIsOneCondition(term: string)
    requires Unquoted(term) && forall k: nat | k < |term| :: !AndAt(term, k) && !OrAt(term, k)
    ensures Parsed(term) == if Strip(term) == "" then MissingCondition else Conditions([[Strip(term)]])
  {
    var none: Alternatives := [[]];
    ScansPlain(term, 0, |term|, none, "");
    assert term[0..] == term && term[..|term|] == term && "" + term[0..|term|] == term;
    ScanEnd(Before(term, |term|), none, term, false);
    var blank: seq<string> := [];
    assert blank + [Strip(term)] == [Strip(term)];
  }

  /** The first such word divides the text: what is before it is a condition, and reading goes on behind it in the
      same alternative after AND and in a new one after OR. */
  lemma FirstWordDivides(term: string, k: nat)
    requires Unquoted(term) && k < |term| && (AndAt(term, k) || OrAt(term, k))
    requires forall j: nat | j < k :: !AndAt(term, j) && !OrAt(term, j)
    ensures var condition, length := Strip(term[..k]), if AndAt(term, k) then 3 else 2;
            k + length <= |term|
            && Parsed(term) ==
                 if condition == "" then MissingSide
                 else Scan(Before(term, k + length), term[k + length..],
                           if AndAt(term, k) then [[condition]] else [[condition], []], "", false)
  {
    hide Scan, Strip;
    var none: Alternatives := [[]];
    var length := if AndAt(term, k) then 3 else 2;
    ScansPlain(term, 0, k, none, "");
    assert term[0..] == term && "" + term[0..k] == term[..k];
    OperatorIff(term, k, false);
    ScanStep(Before(term, k), term[k..], none, term[..k], false);
    assert term[k..][length..] == term[k + length..] && term[k..][length - 1] == term[k + length - 1];
    var blank: seq<string> := [];
    assert blank + [Strip(term[..k])] == [Strip(term[..k])];
    var first: Alternatives := [[Strip(term[..k])]];
    assert WithCondition(none, Strip(term[..k])) == first && first + [blank] == [[Strip(term[..k])], []];
    assert term[k..][0] == term[k] && term[k] != QUOTE && length <= |term[k..]|;
  }

  /** Reading over text that is neither quoted nor an operator. */
  lemma {:induction false} ScansPlain(term: string, i: nat, k: nat, groups: Alternatives, parts: string)
    requires i <= k <= |term| && groups != [] && Unquoted(term)
    requires forall j: nat | i <= j < k :: !AndAt(term, j) && !OrAt(term, j)
    ensures Scan(Before(term, i), term[i..], groups, parts, false)
         == Scan(Before(term, k), term[k..], groups, parts + term[i..k], false)
    decreases k - i
  {
    hide Scan, Strip, AndAt, OrAt, Operator;
    if i == k {
      assert parts + term[i..k] == parts;
    } else {
      OperatorIff(term, i, false);
      ScanStep(Before(term, i), term[i..], groups, parts, false);
      assert term[i..][1..] == term[i + 1..] && term[i..][0] == term[i];
      ScansPlain(term, i + 1, k, groups, parts + [term[i]]);
      assert parts + [term[i]] + term[i + 1..k] == parts + term[i..k];
    }
  }

  // ----- Writing conditions down -----

  function Quoted(phrase: string): string {
    [QUOTE] + phrase + [QUOTE]
  }

  function RenderGroup(group: seq<string>): string
    requires group != []
  {
    if |group| == 1 then Quoted(group[0]) else Quoted(group[0]) + " AND " + RenderGroup(group[1..])
  }

  function Render(groups: Alternatives): string
    requires WellFormed(groups)
  {
    if |groups| == 1 then RenderGroup(groups[0]) else RenderGroup(groups[0]) + " OR " + Render(groups[1..])
  }

  /** Inside quotation marks everything is taken as it is. */
  lemma {:induction false} ScansPhrase(prev: Option<char>, phrase: string, rest: string, groups: Alternatives, parts: string)
    requires groups != [] && Unquoted(phrase)
    ensures Scan(prev, phrase + [QUOTE] + rest, groups, parts, true) == Scan(Some(QUOTE), rest, groups, parts + phrase, false)
    decreases |phrase|
  {
    var text := phrase + [QUOTE] + rest;
    if phrase == "" {
      assert text[1..] == rest && parts + phrase == parts;
    } else {
      assert text[1..] == phrase[1..] + [QUOTE] + rest;
      assert parts + [phrase[0]] + phrase[1..] == parts + phrase;
      ScansPhrase(Some(phrase[0]), phrase[1..], rest, groups, parts + [phrase[0]]);
    }
  }

  lemma ScansQuoted(prev: Option<char>, phrase: string, rest: string, groups: Alternatives, parts: string)
    requires groups != [] && Unquoted(phrase)
    ensures Scan(prev, Quoted(phrase) + rest, groups, parts, false) == Scan(Some(QUOTE), rest, groups, parts + phrase, false)
  {
    var text := Quoted(phrase) + rest;
    assert text[1..] == phrase + [QUOTE] + rest;
    ScansPhrase(Some(QUOTE), phrase, rest, groups, parts);
  }

  /** A condition followed by a space may have that space around it. */
  lemma StripKeepsPhrase(phrase: string)
    requires Phrase(phrase)
    ensures Strip(phrase + " ") == phrase && Strip(" " + phrase) == phrase && Strip(" " + phrase + " ") == phrase
    ensures Strip(phrase) == phrase
  {
    var i := LeftPart(phrase);
    if i > 0 {
      ShorterStrip(phrase[i..]);
    }
    assert !Space(phrase[0]);
    var after, before, both := phrase + " ", " " + phrase, " " + phrase + " ";
    assert after[0] == phrase[0] && StripLeft(after) == after && after[..|after| - 1] == phrase;
    assert before[1..] == phrase && StripLeft(before) == StripLeft(phrase) == phrase;
    assert both[1..] == after && StripLeft(both) == StripLeft(after);
  }

  lemma ShorterStrip(s: string)
    ensures |StripRight(s)| <= |s|
  {
    var j := RightPart(s);
  }

  /** The word AND between spaces ends a condition. */
  lemma ScansAnd(phrase: string, lead: string, rest: string, groups: Alternatives)
    requires groups != [] && Phrase(phrase) && (lead == "" || lead == " ")
    ensures Scan(Some(QUOTE), " AND " + rest, groups, lead + phrase, false)
         == Scan(Some(' '), rest, WithCondition(groups, phrase), " ", false)
  {
    StripKeepsPhrase(phrase);
    var text, parts := " AND " + rest, lead + phrase;
    assert text[0] == ' ' && text[1..] == "AND " + rest;
    var next := "AND " + rest;
    assert Operator(Some(QUOTE), text, false) == 0;
    assert Reads(next, "AND") && next[3..] == " " + rest;
    assert parts == if lead == "" then phrase else " " + phrase;
    var after := " " + rest;
    assert after[1..] == rest && after[0] == ' ' && !Reads(after, "AND") && !Reads(after, "OR");
    assert "" + " " == " " && [' '] == " ";
    assert Scan(Some(QUOTE), text, groups, parts, false) == Scan(Some(' '), next, groups, parts + " ", false);
    assert Scan(Some(' '), next, groups, parts + " ", false) == Scan(Some('D'), after, WithCondition(groups, phrase), "", false);
  }

  lemma ScansOr(phrase: string, lead: string, rest: string, groups: Alternatives)
    requires groups != [] && Phrase(phrase) && (lead == "" || lead == " ")
    ensures Scan(Some(QUOTE), " OR " + rest, groups, lead + phrase, false)
         == Scan(Some(' '), rest, WithCondition(groups, phrase) + [[]], " ", false)
  {
    StripKeepsPhrase(phrase);
    var text, parts := " OR " + rest, lead + phrase;
    assert text[0] == ' ' && text[1..] == "OR " + rest;
    var next := "OR " + rest;
    assert Operator(Some(QUOTE), text, false) == 0;
    assert Reads(next, "OR") && !Reads(next, "AND") && next[2..] == " " + rest;
    assert parts == if lead == "" then phrase else " " + phrase;
    var after := " " + rest;
    assert after[1..] == rest && after[0] == ' ' && !Reads(after, "AND") && !Reads(after, "OR");
    assert "" + " " == " " && [' '] == " ";
    assert Scan(Some(QUOTE), text, groups, parts, false) == Scan(Some(' '), next, groups, parts + " ", false);
    assert Scan(Some(' '), next, groups, parts + " ", false)
        == Scan(Some('R'), after, WithCondition(groups, phrase) + [[]], "", false);
  }

  /** Reading a written group adds its conditions to the last alternative. */
  lemma {:induction false} ScansGroup(prev: Option<char>, group: seq<string>, rest: string, groups: Alternatives, lead: string)
    requires groups != [] && group != [] && Phrases(group) && (lead == "" || lead == " ")
    ensures var last := |group| - 1;
            Scan(prev, RenderGroup(group) + rest, groups, lead, false)
              == Scan(Some(QUOTE), rest, Extended(groups, group[..last]), (if last == 0 then lead else " ") + group[last], false)
    decreases |group|
  {
    hide Scan, Strip, Operator;
    if |group| == 1 {
      assert group[..0] == [] && groups[|groups| - 1] + [] == groups[|groups| - 1];
      assert Extended(groups, []) == groups;
      ScansQuoted(prev, group[0], rest, groups, lead);
    } else {
      var more := RenderGroup(group[1..]) + rest;
      assert RenderGroup(group) + rest == Quoted(group[0]) + (" AND " + more);
      ScansQuoted(prev, group[0], " AND " + more, groups, lead);
      ScansAnd(group[0], lead, more, groups);
      var longer := WithCondition(groups, group[0]);
      ScansGroup(Some(' '), group[1..], rest, longer, " ");
      var last := |group| - 1;
      assert group[..last] == [group[0]] + group[1..][..last - 1];
      ExtendedTwice(groups, group[0], group[1..][..last - 1]);
    }
  }

  function Extended(groups: Alternatives, conditions: seq<string>): Alternatives
    requires groups != []
  {
    groups[|groups| - 1 := groups[|groups| - 1] + conditions]
  }

  lemma ExtendedTwice(groups: Alternatives, first: string, others: seq<string>)
    requires groups != []
    ensures Extended(WithCondition(groups, first), others) == Extended(groups, [first] + others)
  {
    var n := |groups| - 1;
    assert groups[n] + [first] + others == groups[n] + ([first] + others);
  }

  lemma ExtendedNew(done: Alternatives, conditions: seq<string>, last: string)
    ensures Extended(done + [[]], conditions) == done + [conditions]
    ensures WithCondition(done + [conditions], last) == done + [conditions + [last]]
  {
    var blank: seq<string> := [];
    assert blank + conditions == conditions;
    assert (done + [blank])[|done|] == blank && (done + [conditions])[|done|] == conditions;
  }

  lemma {:induction false} ScansAll(prev: Option<char>, groups: Alternatives, done: Alternatives, lead: string)
    requires WellFormed(groups) && (lead == "" || lead == " ")
    ensures Scan(prev, Render(groups), done + [[]], lead, false) == Conditions(done + groups)
    decreases |groups|
  {
    hide Scan, Strip, Operator, RenderGroup;
    var group := groups[0];
    var last := |group| - 1;
    var open := Extended(done + [[]], group[..last]);
    var parts := (if last == 0 then lead else " ") + group[last];
    assert group == group[..last] + [group[last]];
    ExtendedNew(done, group[..last], group[last]);
    assert WithCondition(open, group[last]) == done + [group];
    if |groups| == 1 {
      assert RenderGroup(group) + "" == RenderGroup(group);
      ScansGroup(prev, group, "", done + [[]], lead);
      ScansEnd(parts, group[last], open);
      assert done + groups == done + [group];
    } else {
      var more := Render(groups[1..]);
      ScansGroup(prev, group, " OR " + more, done + [[]], lead);
      assert Render(groups) == RenderGroup(group) + (" OR " + more);
      ScansOr(group[last], if last == 0 then lead else " ", more, open);
      ScansAll(Some(' '), groups[1..], done + [group], " ");
      assert done + [group] + groups[1..] == done + groups;
    }
  }

  lemma ScansEnd(parts: string, phrase: string, groups: Alternatives)
    requires groups != [] && Phrase(phrase) && (parts == phrase || parts == " " + phrase || parts == "" + phrase)
    ensures Scan(Some(QUOTE), "", groups, parts, false) == Conditions(WithCondition(groups, phrase))
  {
    StripKeepsPhrase(phrase);
    assert "" + phrase == phrase;
  }

  /** Writing conditions down and reading them back gives the same conditions, whatever words they contain. */
  lemma ParseRender(groups: Alternatives)
    requires WellFormed(groups)
    ensures Parsed(Render(groups)) == Conditions(groups)
  {
    hide Scan;
    var none: Alternatives := [];
    var open: Alternatives := [[]];
    ScansAll(None, groups, none, "");
    assert none + open == open && none + groups == groups;
  }

  /** Whatever a search is read as can be written down, and means the same when read again. */
  lemma RenderParsed(term: string)
    requires Parsed(term).Conditions?
    ensures WellFormed(Parsed(term).groups)
    ensures Parsed(Render(Parsed(term).groups)) == Parsed(term)
  {
    hide Scan;
    ScanIsWellFormed(None, term, [[]], "", false);
    ParseRender(Parsed(term).groups);
  }
}
