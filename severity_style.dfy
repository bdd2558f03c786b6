/**
 * How the results page styles a severity text (`getSeverityColor` and
 * `getSeverityIcon`).  Only the choice each function makes is kept: the colour
 * family of the badge, and the icon with its tint.
 */
module SeverityStyle {
  import opened Common
  import opened Text

  /** The four visual categories a severity text falls into. */
  datatype Category = High | Moderate | Low | Healthy

  /** Colour families of the badge: red, orange, yellow and green classes. */
  datatype Tint = Red | Orange | Yellow | Green

  datatype Glyph = AlertTriangle | AlertCircle | CheckCircle

  datatype Icon = Icon(glyph: Glyph, tint: Tint)

  /** `severity?.toLowerCase().includes(word)`: false when the severity is absent. */
  predicate Mentions(severity: Option<string>, word: string)
    ensures Mentions(severity, word) <==>
      severity.Some? && exists i: nat :: OccursAt(Lower(severity.value), word, i)
  {
    match severity
    case None => false
    case Some(text) =>
      ContainsIffOccurs(Lower(text), word);
      Contains(Lower(text), word)
  }

  /** The badge colour chosen by `getSeverityColor`. */
  function SeverityColor(severity: Option<string>): (t: Tint)
    ensures t == CategoryTint(Classify(severity))
  {
    if Mentions(severity, "high") then Red
    else if Mentions(severity, "moderate") then Orange
    else if Mentions(severity, "low") then Yellow
    else Green
  }

  /** The icon chosen by `getSeverityIcon`. */
  function SeverityIcon(severity: Option<string>): (i: Icon)
    ensures i == CategoryIcon(Classify(severity))
    ensures i.tint == SeverityColor(severity)
  {
    if Mentions(severity, "high") then Icon(AlertTriangle, Red)
    else if Mentions(severity, "moderate") then Icon(AlertCircle, Orange)
    else if Mentions(severity, "low") then Icon(AlertCircle, Yellow)
    else Icon(CheckCircle, Green)
  }

  /** The category a severity text belongs to, by the first keyword it mentions. */
  function Classify(severity: Option<string>): (c: Category)
    ensures severity.None? ==> c == Healthy
    ensures c == High <==> Mentions(severity, "high")
    ensures c == Moderate <==> !Mentions(severity, "high") && Mentions(severity, "moderate")
    ensures c == Low <==> !Mentions(severity, "high") && !Mentions(severity, "moderate") && Mentions(severity, "low")
    ensures c == Healthy <==> !Mentions(severity, "high") && !Mentions(severity, "moderate") && !Mentions(severity, "low")
  {
    if Mentions(severity, "high") then High
    else if Mentions(severity, "moderate") then Moderate
    else if Mentions(severity, "low") then Low
    else Healthy
  }

  function CategoryTint(c: Category): Tint {
    match c
    case High => Red
    case Moderate => Orange
    case Low => Yellow
    case Healthy => Green
  }

  function CategoryIcon(c: Category): Icon {
    match c
    case High => Icon(AlertTriangle, Red)
    case Moderate => Icon(AlertCircle, Orange)
    case Low => Icon(AlertCircle, Yellow)
    case Healthy => Icon(CheckCircle, Green)
  }

  /** Distinct categories are styled distinctly. */
  lemma CategoriesDistinguishable(c: Category, d: Category)
    requires CategoryTint(c) == CategoryTint(d)
    ensures c == d
  {
  }

  /** Matching ignores case: texts that lower-case alike are classified alike. */
  lemma {:induction false} CaseInsensitive(x: string, y: string)
    requires Lower(x) == Lower(y)
    ensures Classify(Some(x)) == Classify(Some(y))
  {
  }

  /** A word whose first letter is missing from the lower-cased text is not mentioned. */
  lemma NotMentioned(text: string, word: string)
    requires |word| > 0 && word[0] !in Lower(text)
    ensures !Mentions(Some(text), word)
  {
    if Contains(Lower(text), word) {
      ContainsKeepsChars(Lower(text), word, word[0]);
    }
  }

  /** A text whose lower-case form begins with the word mentions it. */
  lemma MentionedAtStart(text: string, word: string, rest: string)
    requires Lower(text) == word + rest
    ensures Mentions(Some(text), word)
  {
    assert (word + rest)[..|word|] == word;
  }

  /** The lower-case forms of the example texts below. */
  lemma LowerExamples()
    ensures Lower("HIGH") == "high" + ""
    ensures Lower("Moderate risk") == "moderate" + " risk"
    ensures Lower("N/A") == "n/a"
  {
  }

  /** Upper-case severity text is still recognised: "HIGH" is high. */
  lemma ExampleUpperCaseHigh()
    ensures Classify(Some("HIGH")) == High
  {
    LowerExamples();
    MentionedAtStart("HIGH", "high", "");
  }

  /** "Moderate risk" is moderate. */
  lemma ExampleModerateRisk()
    ensures Classify(Some("Moderate risk")) == Moderate
  {
    LowerExamples();
    NotMentioned("Moderate risk", "high");
    MentionedAtStart("Moderate risk", "moderate", " risk");
  }

  /** An absent severity and "N/A" fall through to the default category. */
  lemma ExampleDefault()
    ensures Classify(None) == Healthy
    ensures Classify(Some("N/A")) == Healthy
  {
    LowerExamples();
    NotMentioned("N/A", "high");
    NotMentioned("N/A", "moderate");
    NotMentioned("N/A", "low");
  }
}
