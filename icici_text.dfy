/**
 * The ICICI extractor's text-level helpers: `normalize_text`, `identify_letter_type`
 * and `clean_patient_name` (icici.py, with the live copies in scan_spam_icici.py).
 */
module IciciText {
  import opened Common
  import opened Text
  import opened Regex

  // ---------------------------------------------------------------- normalize_text

  const Nbsp: char := '\U{A0}'
  const SoftHyphen: char := '\U{AD}'
  const EnDash: char := '\U{2013}'
  const EmDash: char := '\U{2014}'

  /** The characters `normalize_text` replaces. */
  predicate IsSpecial(c: char) { c == Nbsp || c == SoftHyphen || c == EnDash || c == EmDash }

  predicate NoSpecial(s: string) { forall k :: 0 <= k < |s| ==> !IsSpecial(s[k]) }

  /** What each character becomes under the four replacements. */
  function NormChar(c: char): (d: char)
    ensures !IsSpecial(d)
    ensures !IsSpecial(c) ==> d == c
  {
    if c == Nbsp then ' ' else if c == SoftHyphen || c == EnDash || c == EmDash then '-' else c
  }

  /** The replacement chain `s.replace(NBSP, ' ').replace(SHY, '-').replace(EN, '-').replace(EM, '-')`. */
  function Replaced(s: string): string
  {
    Replace(Replace(Replace(Replace(s, [Nbsp], " "), [SoftHyphen], "-"), [EnDash], "-"), [EmDash], "-")
  }

  /** The replacement chain is the character-wise map `NormChar`. */
  lemma ReplacedIsMap(s: string)
    ensures |Replaced(s)| == |s|
    ensures forall k :: 0 <= k < |s| ==> Replaced(s)[k] == NormChar(s[k])
  {
    var a := Replace(s, [Nbsp], " ");
    ReplaceChar(s, Nbsp, ' ');
    var b := Replace(a, [SoftHyphen], "-");
    ReplaceChar(a, SoftHyphen, '-');
    var c := Replace(b, [EnDash], "-");
    ReplaceChar(b, EnDash, '-');
    ReplaceChar(c, EmDash, '-');
  }

  /** `normalize_text(s)` for a string `s`. */
  function Normalize(s: string): (r: string)
    ensures IsStripped(r)
    ensures NoSpecial(r)
    ensures |r| <= |s|
  {
    ReplacedIsMap(s);
    InfixNoSpecial(Strip(Replaced(s)), Replaced(s));
    Strip(Replaced(s))
  }

  lemma InfixNoSpecial(r: string, t: string)
    requires IsInfix(r, t) && NoSpecial(t)
    ensures NoSpecial(r)
  {
    var a: nat :| OccursAt(t, r, a);
    assert forall k :: 0 <= k < |r| ==> r[k] == t[a + k];
  }

  /** `normalize_text(s)`: None passes through. */
  function NormalizeText(s: Option<string>): (r: Option<string>)
    ensures r.None? <==> s.None?
    ensures r.Some? ==> IsStripped(r.value) && NoSpecial(r.value)
  {
    if s.None? then None else Some(Normalize(s.value))
  }

  /** Normalising twice is normalising once. */
  lemma NormalizeIdempotent(s: string)
    ensures Normalize(Normalize(s)) == Normalize(s)
  {
    var r := Normalize(s);
    ReplacedIsMap(r);
    assert Replaced(r) == r;
    StripStripped(r);
  }

  lemma NormalizeTextIdempotent(s: Option<string>)
    ensures NormalizeText(NormalizeText(s)) == NormalizeText(s)
  {
    if s.Some? {
      NormalizeIdempotent(s.value);
    }
  }

  /** Text without special characters or surrounding whitespace is left alone. */
  lemma NormalizeFixed(s: string)
    requires IsStripped(s) && NoSpecial(s)
    ensures Normalize(s) == s
  {
    ReplacedIsMap(s);
    assert Replaced(s) == s;
    StripStripped(s);
  }

  // ---------------------------------------------------------------- identify_letter_type

  datatype LetterType = AuthorizationLetter | QueryLetter | DeniedLetter | UnknownLetterType

  /** The label the source returns for each letter type. */
  function LetterTypeName(t: LetterType): string
  {
    match t
    case AuthorizationLetter => "Authorization Letter"
    case QueryLetter => "Query Letter"
    case DeniedLetter => "Denied Letter"
    case UnknownLetterType => "Unknown Letter Type"
  }

  /** The case-insensitive title pattern `w0\s+w1\s+...\s+wn`. */
  function Phrase(words: seq<string>): Pattern
  {
    Pattern(PhraseItems(words), true, false)
  }

  const AuthorizationTitle: Pattern := Phrase(["Authorization", "Letter", "to", "the", "Hospital"])
  const QueryTitle: Pattern := Phrase(["ADDITIONAL", "INFORMATION", "REQUEST", "FORM"])
  const DenialTitle: Pattern := Phrase(["DENIAL", "OF", "CASHLESS", "ACCESS"])
  const RejectionTitle: Pattern := Phrase(["Rejection", "Letter"])

  const QueryWords: seq<string> := ["Query", "Information Request", "ADDITIONAL INFORMATION"]
  const DeniedWords: seq<string> := ["Denied", "Denial", "DENIAL", "Rejection"]

  /** `' '.join(text.split('\n')[:20])`: where the titles are looked for. */
  function FirstLines(text: string): string
  {
    var ls := Lines(text);
    Join(" ", ls[..if |ls| < 20 then |ls| else 20])
  }

  predicate ContainsAny(text: string, words: seq<string>)
  {
    exists k :: 0 <= k < |words| && Contains(text, words[k])
  }

  /** The title tier: the type a title among the first 20 lines fixes, if any. */
  function TitleType(first: string): (r: Option<LetterType>)
    ensures r.Some? ==> r.value != UnknownLetterType
    ensures r.None? <==> !Finds(AuthorizationTitle, first) && !Finds(QueryTitle, first)
                         && !Finds(DenialTitle, first) && !Finds(RejectionTitle, first)
  {
    if Finds(AuthorizationTitle, first) then Some(AuthorizationLetter)
    else if Finds(QueryTitle, first) then Some(QueryLetter)
    else if Finds(DenialTitle, first) || Finds(RejectionTitle, first) then Some(DeniedLetter)
    else None
  }

  /** The keyword tier: case-sensitive substrings of the whole text. */
  function KeywordType(text: string): (r: LetterType)
    ensures r == UnknownLetterType <==> !Contains(text, "Authorization Letter")
                                        && !ContainsAny(text, QueryWords) && !ContainsAny(text, DeniedWords)
  {
    if Contains(text, "Authorization Letter") then AuthorizationLetter
    else if ContainsAny(text, QueryWords) then QueryLetter
    else if ContainsAny(text, DeniedWords) then DeniedLetter
    else UnknownLetterType
  }

  /** `identify_letter_type(text)`. */
  function IdentifyLetterType(text: string): (r: LetterType)
    ensures TitleType(FirstLines(text)).Some? ==> r == TitleType(FirstLines(text)).value
    ensures TitleType(FirstLines(text)).None? ==> r == KeywordType(text)
    ensures r == UnknownLetterType <==>
              TitleType(FirstLines(text)).None? && !Contains(text, "Authorization Letter")
              && !ContainsAny(text, QueryWords) && !ContainsAny(text, DeniedWords)
  {
    var t := TitleType(FirstLines(text));
    if t.Some? then t.value else KeywordType(text)
  }

  /** A title among the first 20 lines decides the type whatever the rest of the text says. */
  lemma TitleDecides(text1: string, text2: string)
    requires FirstLines(text1) == FirstLines(text2)
    requires TitleType(FirstLines(text1)).Some?
    ensures IdentifyLetterType(text1) == IdentifyLetterType(text2)
  {
  }

  /** The authorization title outranks every other title and keyword. */
  lemma AuthorizationTitleFirst(text: string)
    requires Finds(AuthorizationTitle, FirstLines(text))
    ensures IdentifyLetterType(text) == AuthorizationLetter
  {
  }

  // ---------------------------------------------------------------- clean_patient_name

  const NameSeparators: seq<string> := ["Policy", "Co-Pay", "UHID", ":", "  "]

  predicate NonEmptyAll(seps: seq<string>) { forall k :: 0 <= k < |seps| ==> |seps[k]| > 0 }

  /** One round of the loop: `name.split(sep)[0].strip()` when `sep in name`. */
  function Cut(name: string, sep: string): string
    requires |sep| > 0
  {
    if Contains(name, sep) then Strip(Before(name, sep)) else name
  }

  /** What the separator loop leaves after handling `seps` in order. */
  function TruncateAt(name: string, seps: seq<string>): string
    requires NonEmptyAll(seps)
    decreases |seps|
  {
    if |seps| == 0 then name else Cut(TruncateAt(name, seps[..|seps| - 1]), seps[|seps| - 1])
  }

  lemma TruncateAtSnoc(name: string, seps: seq<string>, i: nat)
    requires NonEmptyAll(seps) && i < |seps|
    ensures TruncateAt(name, seps[..i + 1]) == Cut(TruncateAt(name, seps[..i]), seps[i])
  {
    assert seps[..i + 1][..i] == seps[..i];
  }

  /** Cutting at a separator keeps a piece of the original that lacks the separator. */
  lemma CutStep(name: string, sep: string, orig: string)
    requires |sep| > 0 && IsInfix(name, orig)
    ensures IsInfix(Cut(name, sep), orig)
    ensures !Contains(Cut(name, sep), sep)
    ensures forall x :: !Contains(name, x) ==> !Contains(Cut(name, sep), x)
  {
    if Contains(name, sep) {
      var before := Before(name, sep);
      PrefixInfix(name, |before|);
      assert name[..|before|] == before;
      InfixTrans(Strip(before), before, name);
      InfixTrans(Strip(before), name, orig);
      InfixAvoids(Strip(before), before, sep);
      forall x | !Contains(name, x) ensures !Contains(Cut(name, sep), x) {
        InfixAvoids(Strip(before), name, x);
      }
    }
  }

  /** The separator loop of `clean_patient_name`: cut at each separator in turn. */
  method CutAll(orig: string, seps: seq<string>) returns (name: string)
    requires NonEmptyAll(seps)
    ensures name == TruncateAt(orig, seps)
    ensures IsInfix(name, orig)
    ensures forall k :: 0 <= k < |seps| ==> !Contains(name, seps[k])
  {
    name := orig;
    InfixRefl(name);
    for i := 0 to |seps|
      invariant name == TruncateAt(orig, seps[..i])
      invariant IsInfix(name, orig)
      invariant forall k :: 0 <= k < i ==> !Contains(name, seps[k])
    {
      TruncateAtSnoc(orig, seps, i);
      CutStep(name, seps[i], orig);
      if Contains(name, seps[i]) {
        name := Strip(Before(name, seps[i]));
      }
    }
    assert seps[..|seps|] == seps;
  }

  /** What `clean_patient_name(name_text)` returns. */
  function CleanedName(nameText: Option<string>): Option<string>
  {
    if nameText.None? || nameText.value == "" then None
    else Some(Strip(TruncateAt(nameText.value, NameSeparators)))
  }

  /** `clean_patient_name(name_text)`. */
  method CleanPatientName(nameText: Option<string>) returns (r: Option<string>)
    ensures r == CleanedName(nameText)
    ensures r.None? <==> nameText.None? || nameText.value == ""
    ensures r.Some? ==> r.value == Strip(TruncateAt(nameText.value, NameSeparators))
    ensures r.Some? ==> IsInfix(r.value, nameText.value) && IsStripped(r.value)
    ensures r.Some? ==> forall k :: 0 <= k < |NameSeparators| ==> !Contains(r.value, NameSeparators[k])
  {
    if nameText.None? || nameText.value == "" {
      return None;
    }
    var name := CutAll(nameText.value, NameSeparators);
    var result := Strip(name);
    InfixTrans(result, name, nameText.value);
    forall k | 0 <= k < |NameSeparators| ensures !Contains(result, NameSeparators[k]) {
      InfixAvoids(result, name, NameSeparators[k]);
    }
    return Some(result);
  }
}
