/**
 * The password strength indicator: five requirements, a strength that counts
 * the satisfied ones, the label and the five bars that show it.
 */
module PasswordStrength {
  import opened Wrappers
  import opened Seqs
  import opened JsText

  predicate IsUpper(c: char) { 'A' <= c <= 'Z' }
  predicate IsLower(c: char) { 'a' <= c <= 'z' }
  /** `\d` without the `u` flag: the ASCII digits. */
  predicate IsDigitChar(c: char) { '0' <= c <= '9' }

  /** The characters of the class `[!@#$%^&*(),.?":{}|<>]`. */
  const SpecialChars: string := "!@#$%^&*(),.?\":{}|<>"

  predicate IsSpecial(c: char) { c in SpecialChars }

  /** `re.test(password)` for a one-character class `re`. */
  predicate HasChar(password: string, cls: char -> bool) {
    exists i :: 0 <= i < |password| && cls(password[i])
  }

  /** One line of the requirements list. */
  datatype Requirement = Requirement(text: string, check: bool)

  function Requirements(password: string): (rs: seq<Requirement>)
    ensures |rs| == 5
    ensures rs[0].check <==> |password| >= 8
  {
    [ Requirement("At least 8 characters", |password| >= 8),
      Requirement("Contains uppercase letter", HasChar(password, IsUpper)),
      Requirement("Contains lowercase letter", HasChar(password, IsLower)),
      Requirement("Contains number", HasChar(password, IsDigitChar)),
      Requirement("Contains special character", HasChar(password, IsSpecial)) ]
  }

  predicate IsMet(r: Requirement) { r.check }

  /** `requirements.filter(req => req.check).length`. */
  function Strength(password: string): (s: nat)
    ensures s <= 5
    ensures s == 0 <==> forall i :: 0 <= i < 5 ==> !Requirements(password)[i].check
    ensures s == 5 <==> forall i :: 0 <= i < 5 ==> Requirements(password)[i].check
  {
    Count(Requirements(password), IsMet)
  }

  /** The special class holds exactly the twenty listed characters. */
  lemma SpecialClass(c: char)
    ensures IsSpecial(c) <==> c in {'!', '@', '#', '$', '%', '^', '&', '*', '(', ')', ',', '.', '?', '"', ':', '{', '}', '|', '<', '>'}
    ensures |SpecialChars| == 20
  {
  }

  /** Appending a character never lowers the strength: every check survives extension. */
  lemma StrengthMonotone(password: string, c: char)
    ensures Strength(password) <= Strength(password + [c])
  {
    var p := password + [c];
    forall cls: char -> bool | HasChar(password, cls) ensures HasChar(p, cls) {
      var i :| 0 <= i < |password| && cls(password[i]);
      assert p[i] == password[i];
    }
    CountPointwise(Requirements(password), Requirements(p), IsMet, IsMet);
  }

  const StrengthColors: seq<string> := ["bg-red-500", "bg-red-400", "bg-yellow-500", "bg-blue-500", "bg-green-500"]
  const StrengthLabels: seq<string> := ["Very Weak", "Weak", "Fair", "Good", "Strong"]

  /** `strengthLabels[strength - 1] || 'Very Weak'`: index -1 is `undefined`. */
  function StrengthLabel(strength: nat): (text: string)
    requires strength <= 5
    ensures strength == 0 ==> text == "Very Weak"
    ensures strength > 0 ==> text == StrengthLabels[strength - 1]
  {
    OrString(LabelAt(strength - 1), "Very Weak")
  }

  /** `strengthLabels[i]`: `undefined` outside the array. */
  function LabelAt(i: int): (entry: Option<string>)
    ensures entry.Some? <==> 0 <= i < |StrengthLabels|
    ensures entry.Some? ==> entry.value == StrengthLabels[i]
  {
    if 0 <= i < |StrengthLabels| then Some(StrengthLabels[i]) else None
  }

  /** Strengths 0 and 1 both read "Very Weak"; no other strength does. */
  lemma StrengthLabelVeryWeak(strength: nat)
    requires strength <= 5
    ensures StrengthLabel(strength) == "Very Weak" <==> strength <= 1
  {
  }

  const Uncoloured := "bg-crm-tertiary"

  /** The class of bar `index` of the five. */
  function BarClass(index: nat, strength: nat): string
    requires strength <= 5
  {
    if index < strength then StrengthColors[strength - 1] else Uncoloured
  }

  function Bars(strength: nat): (bars: seq<string>)
    requires strength <= 5
    ensures |bars| == 5
    ensures forall i :: 0 <= i < 5 ==> bars[i] == BarClass(i, strength)
  {
    [BarClass(0, strength), BarClass(1, strength), BarClass(2, strength), BarClass(3, strength), BarClass(4, strength)]
  }

  predicate IsColoured(bar: string) {
    bar != Uncoloured
  }

  /** Exactly `strength` bars are coloured, the first ones, all in the same colour. */
  lemma ColouredBars(strength: nat)
    requires strength <= 5
    ensures Count(Bars(strength), IsColoured) == strength
    ensures forall i :: 0 <= i < strength ==> Bars(strength)[i] == StrengthColors[strength - 1]
  {
    var bars := Bars(strength);
    assert forall i :: 0 <= i < 5 ==> IsColoured(StrengthColors[i]);
    CountLeading(bars, IsColoured, strength);
  }

  /** What the indicator renders. */
  datatype IndicatorView = IndicatorView(strengthLabel: string, bars: seq<string>, requirements: seq<Requirement>)

  /** `if (!password) return null`, otherwise the label, the bars and the list. */
  function Indicator(password: string): (view: Option<IndicatorView>)
    ensures view.None? <==> password == []
    ensures view.Some? ==> Count(view.value.bars, IsColoured) == Strength(password)
  {
    if password == [] then None
    else
      var s := Strength(password);
      ColouredBars(s);
      Some(IndicatorView(StrengthLabel(s), Bars(s), Requirements(password)))
  }
}
