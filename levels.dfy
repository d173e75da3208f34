/**
 * The ordinal scale of understanding levels: parsing a `LevelN` tag to its
 * number, and the two per-level texts the newer tutor controller uses, the
 * assessment rubric and the response guidance.
 */
module LevelScale {
  import opened Wrappers

  /** The white-space characters JavaScript's `parseInt` skips before a number. */
  predicate IsJsSpace(c: char) {
    || c == ' ' || c == '\t' || c == '\n' || c == '\U{B}' || c == '\U{C}' || c == '\r'
    || c == '\U{A0}' || c == '\U{1680}' || ('\U{2000}' <= c <= '\U{200A}')
    || c == '\U{2028}' || c == '\U{2029}' || c == '\U{202F}' || c == '\U{205F}'
    || c == '\U{3000}' || c == '\U{FEFF}'
  }

  predicate IsDigit(c: char) {
    '0' <= c <= '9'
  }

  predicate AllDigits(s: string) {
    forall i :: 0 <= i < |s| ==> IsDigit(s[i])
  }

  /** `s` without its leading white space. */
  function TrimStart(s: string): (r: string)
    ensures r == "" || !IsJsSpace(r[0])
  {
    if s != "" && IsJsSpace(s[0]) then TrimStart(s[1..]) else s
  }

  /** The longest prefix of `s` made of decimal digits. */
  function DigitPrefix(s: string): (r: string)
    ensures |r| <= |s| && r == s[..|r|]
    ensures AllDigits(r)
    ensures |r| == |s| || !IsDigit(s[|r|])
  {
    if s != "" && IsDigit(s[0]) then [s[0]] + DigitPrefix(s[1..]) else ""
  }

  /** The number a string of decimal digits denotes. */
  function DigitsValue(ds: string): nat
    requires AllDigits(ds)
  {
    if ds == "" then 0
    else DigitsValue(ds[..|ds| - 1]) * 10 + (ds[|ds| - 1] as int - '0' as int)
  }

  /**
   * JavaScript's `parseInt(s, 10)`: skip leading white space, read an optional
   * sign, then the longest run of digits; no digits at all is `NaN`, here `None`.
   */
  function ParseInt(s: string): (r: Option<int>)
  {
    var t := TrimStart(s);
    var negative := t != "" && t[0] == '-';
    var rest := if t != "" && (t[0] == '-' || t[0] == '+') then t[1..] else t;
    var ds := DigitPrefix(rest);
    if ds == "" then None
    else
      var v: int := DigitsValue(ds);
      Some(if negative then -v else v)
  }

  /**
   * `intLevel`: the number written after the first five characters of a level
   * tag. A tag of five characters or fewer has nothing after them.
   */
  function IntLevel(tag: string): (r: Option<int>)
    ensures |tag| <= 5 ==> r == None
  {
    ParseInt(if |tag| <= 5 then "" else tag[5..])
  }

  /** A natural number in decimal. */
  function NatString(n: nat): (r: string)
    ensures r != "" && AllDigits(r)
  {
    if n < 10 then [('0' as int + n) as char]
    else NatString(n / 10) + [('0' as int + n % 10) as char]
  }

  /** The tag of level `n`. */
  function LevelTag(n: nat): string {
    "Level" + NatString(n)
  }

  /** The five tags the level maps know. */
  predicate IsLevelTag(tag: string) {
    tag == "Level1" || tag == "Level2" || tag == "Level3" || tag == "Level4" || tag == "Level5"
  }

  lemma {:induction false} DigitsValueOfNatString(n: nat)
    ensures DigitsValue(NatString(n)) == n
  {
    if n >= 10 {
      var s := NatString(n);
      assert s[..|s| - 1] == NatString(n / 10);
      DigitsValueOfNatString(n / 10);
    }
  }

  lemma {:induction false} DigitPrefixOfDigits(ds: string, rest: string)
    requires AllDigits(ds)
    requires rest == "" || !IsDigit(rest[0])
    ensures DigitPrefix(ds + rest) == ds
  {
    if ds == "" {
      assert ds + rest == rest;
    } else {
      assert (ds + rest)[0] == ds[0];
      assert (ds + rest)[1..] == ds[1..] + rest;
      DigitPrefixOfDigits(ds[1..], rest);
    }
  }

  lemma ParseIntOfDigits(ds: string, rest: string)
    requires ds != "" && AllDigits(ds)
    requires rest == "" || !IsDigit(rest[0])
    ensures ParseInt(ds + rest) == Some(DigitsValue(ds))
  {
    var s := ds + rest;
    assert s[0] == ds[0];
    assert IsDigit(s[0]);
    assert !IsJsSpace(s[0]);
    assert TrimStart(s) == s;
    assert s[0] != '-' && s[0] != '+';
    DigitPrefixOfDigits(ds, rest);
    assert DigitPrefix(s) == ds;
  }

  /**
   * A tag made of any five characters, the decimal digits of `n` and then
   * anything that does not start with a digit parses to `n`: "Level3" gives 3,
   * and so does "Level3.".
   */
  lemma IntLevelOfDigits(prefix: string, n: nat, rest: string)
    requires |prefix| == 5
    requires rest == "" || !IsDigit(rest[0])
    ensures IntLevel(prefix + NatString(n) + rest) == Some(n)
  {
    var tag := prefix + NatString(n) + rest;
    assert tag[5..] == NatString(n) + rest;
    ParseIntOfDigits(NatString(n), rest);
    DigitsValueOfNatString(n);
  }

  /** Every tag `LevelN` parses to N; in particular the five tags parse to 1 through 5. */
  lemma IntLevelOfTag(n: nat)
    ensures IntLevel(LevelTag(n)) == Some(n)
    ensures IsLevelTag(LevelTag(n)) <==> 1 <= n <= 5
  {
    IntLevelOfDigits("Level", n, "");
    assert LevelTag(n) == "Level" + NatString(n) + "";
    if n >= 10 {
      assert |NatString(n)| >= 2 by {
        assert NatString(n) == NatString(n / 10) + [('0' as int + n % 10) as char];
      }
    }
  }

  /** The two sentinels the model may answer with carry no level number. */
  lemma SentinelsHaveNoLevel()
    ensures IntLevel("invalidInput") == None
    ensures IntLevel("changeTopic") == None
    ensures IntLevel("") == None
  {
    assert "invalidInput"[5..] == "idInput";
    assert TrimStart("idInput") == "idInput";
    assert DigitPrefix("idInput") == "";
    assert "changeTopic"[5..] == "eTopic";
    assert TrimStart("eTopic") == "eTopic";
    assert DigitPrefix("eTopic") == "";
  }

  /** A text with holes where the topic goes. */
  datatype Piece = Lit(sentence: nat) | Hole

  /** What fills a hole: the topic, or the word "topic" while no topic is set. */
  function TopicWord(topic: string): (r: string)
    ensures r != ""
  {
    if topic != "" then topic else "topic"
  }

  /** A template with every hole filled by `word`. */
  function Fill(t: seq<Piece>, word: string): string {
    if t == [] then ""
    else
      var head := match t[0] case Lit(k) => Sentence(k) case Hole => word;
      head + Fill(t[1..], word)
  }

  /** `w` occurs in `s` starting at index `i`. */
  predicate OccursAt(s: string, w: string, i: int) {
    0 <= i && i + |w| <= |s| && s[i..i + |w|] == w
  }

  /** `s` has `w` as a contiguous part. */
  predicate Contains(s: string, w: string) {
    exists i | 0 <= i <= |s| :: OccursAt(s, w, i)
  }

  lemma OccursAfter(s: string, rest: string, w: string, i: int)
    requires OccursAt(rest, w, i)
    ensures OccursAt(s + rest, w, |s| + i)
  {
    assert (s + rest)[|s| + i..|s| + i + |w|] == rest[i..i + |w|];
  }

  lemma {:induction false} FillShowsWord(t: seq<Piece>, word: string)
    requires Hole in t
    ensures Contains(Fill(t, word), word)
  {
    var rest := Fill(t[1..], word);
    if t[0] == Hole {
      assert Fill(t, word) == word + rest;
      assert (word + rest)[0..|word|] == word;
      assert OccursAt(Fill(t, word), word, 0);
    } else {
      var s := Sentence(t[0].sentence);
      assert Fill(t, word) == s + rest;
      assert Hole in t[1..] by {
        var k :| 0 <= k < |t| && t[k] == Hole;
        assert k != 0 && t[1..][k - 1] == Hole;
      }
      FillShowsWord(t[1..], word);
      var i :| 0 <= i <= |rest| && OccursAt(rest, word, i);
      OccursAfter(s, rest, word, i);
    }
  }

  /** The rubric texts of the five levels, as in `levelOfUnderstandingMap`. */
  function RubricTemplate(tag: string): Option<seq<Piece>> {
    match tag
    case "Level1" => Some([Lit(0), Hole, Lit(1)])
    case "Level2" => Some([Lit(2), Hole, Lit(3), Hole, Lit(4)])
    case "Level3" => Some([Lit(5), Hole, Lit(6), Hole, Lit(7), Hole, Lit(8)])
    case "Level4" => Some([Lit(9), Hole, Lit(10), Hole, Lit(11)])
    case "Level5" => Some([Lit(12), Hole, Lit(13), Hole, Lit(14), Hole, Lit(15)])
    case _ => None
  }

  /** The guidance texts of the five levels, as in `levelOfUnderstandingGuideMap`. */
  function GuideTemplate(tag: string): Option<seq<Piece>> {
    match tag
    case "Level1" => Some([Lit(16), Hole, Lit(17)])
    case "Level2" => Some([Lit(18), Hole, Lit(19)])
    case "Level3" => Some([Lit(20), Hole, Lit(21), Hole, Lit(22), Hole, Lit(23), Hole, Lit(24)])
    case "Level4" => Some([Lit(25), Hole, Lit(26), Hole, Lit(27), Hole, Lit(28)])
    case "Level5" => Some([Lit(29), Hole, Lit(30)])
    case _ => None
  }

  /** The fixed wording between the topic holes of the level texts. */
  function Sentence(k: nat): string {
    match k
    case 0 => "The student has not demonstrated any understanding of the "
    case 1 => " at hand."
    case 2 => "The student has demonstrated a solid intutuitive understanding of the "
    case 3 => ", but has not demonstrated a solid understanding and comfortability of the mathematical notation, i.e. they may be able to explain to someone what the "
    case 4 => " is, what it does, or what it \"means\", but they're unable to explain the mathematical notation or how it mathematically works."
    case 5 => "The student has demonstrated a strong understanding of the "
    case 6 => " - demonstrating a solid inutitive understanding and a solid understanding and comfortability with the mathematical notation. However the student has not yet demonstrated a strong enough understanding to where they can recognzie and understand corrolaries, logcial extensions, or variations of "
    case 7 => " - meaning they're only able to recognzie that the "
    case 8 => " can be applied to a problem or scenario if it's presented at face value."
    case 9 => "The student has demonstrated a strong, well rounded understanding of the "
    case 10 => " - so much so that they're able to apply their knowledge to alternative and unfamiliar scenarios. This level is only relevant if there are techniques, tricks, or tips surrounding "
    case 11 => " to solve exam problems they'd encounter that they have not demonstrated knowledge of yet."
    case 12 => "The student has a demonstrated a mastery of understanding of the "
    case 13 => ". They are able to teach others about "
    case 14 => " and are comfortably able to solve difficult, unfamiliar problems related to "
    case 15 => "."
    case 16 => "You should explain the "
    case 17 => " and answer their questions in a way that is intuitive and easy to understand. You should not be using much, if any, mathematical notation. The goal here is for them to develop a solid understanding of broadly what the topic is or what it does."
    case 18 => "You should explain the "
    case 19 => " and answer their questions mathematically. The goal is for the student to understand and be comfortable with the mathematical notation of the topic they're asking about."
    case 20 => "You should explain the "
    case 21 => " and answer their questions while trying to introduce to them relevant and practical corollaries or variations of the "
    case 22 => ". Since the student has demonstrated an understanding of the "
    case 23 => " at face value, the goal here is for the student to be comfortable with variations of it that they might see or use to further expand and deepen their understanding of the "
    case 24 => " outside of the original notation presented."
    case 25 => "You should explain the "
    case 26 => " and answer their questions while trying to introduce to them techniques and tricks for solving problems related to the "
    case 27 => ". Since the student has demonstrated a solid and well rounded understanding of the "
    case 28 => " and its variations, the goal here is to strengthen their ability to solve homework or exam problems."
    case 29 => "No further guidance is necessarily needed at this level. If the student wishes to continue doing practice problems with you, or has specific questions, you should continue to guide and help them. However you can definitely recommend to the student to move on to a different topic at this point if they seem like they'd want to. Otherwise, there is no specific manner in which you should answer their questions or help them as they've already demonstrated a very well rounded understanding. Continue to solidfy their understanding by closing any gaps of knowledge related to the "
    case 30 => " they may have."
    case _ => ""
  }

  /** `levelOfUnderstandingMap[tag]`: the rubric sentence for a level, about `topic`. */
  function Rubric(tag: string, topic: string): Option<string> {
    match RubricTemplate(tag)
    case Some(t) => Some(Fill(t, TopicWord(topic)))
    case None => None
  }

  /** `levelOfUnderstandingGuideMap[tag]`: the guidance sentence for a level, about `topic`. */
  function Guide(tag: string, topic: string): Option<string> {
    match GuideTemplate(tag)
    case Some(t) => Some(Fill(t, TopicWord(topic)))
    case None => None
  }

  /**
   * Both maps have an entry for exactly the five level tags, and an empty
   * topic reads as the word "topic", so a lookup never fails for want of a topic.
   */
  lemma LevelTextsDefined(tag: string, topic: string)
    ensures Rubric(tag, topic).Some? <==> IsLevelTag(tag)
    ensures Guide(tag, topic).Some? <==> IsLevelTag(tag)
    ensures Rubric(tag, "") == Rubric(tag, "topic") && Guide(tag, "") == Guide(tag, "topic")
  {
    assert TopicWord("") == TopicWord("topic");
  }

  /** Every rubric and every guidance sentence mentions the topic (or the word "topic"). */
  lemma TemplatesHaveHoles(tag: string)
    requires IsLevelTag(tag)
    ensures RubricTemplate(tag).Some? && Hole in RubricTemplate(tag).value
    ensures GuideTemplate(tag).Some? && Hole in GuideTemplate(tag).value
  {
    assert RubricTemplate(tag).value[1] == Hole;
    assert GuideTemplate(tag).value[1] == Hole;
  }

  lemma LevelTextsMentionTopic(tag: string, topic: string)
    requires IsLevelTag(tag)
    ensures Rubric(tag, topic).Some? && Contains(Rubric(tag, topic).value, TopicWord(topic))
    ensures Guide(tag, topic).Some? && Contains(Guide(tag, topic).value, TopicWord(topic))
  {
    TemplatesHaveHoles(tag);
    FillShowsWord(RubricTemplate(tag).value, TopicWord(topic));
    FillShowsWord(GuideTemplate(tag).value, TopicWord(topic));
  }
}
