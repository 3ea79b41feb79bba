/**
 * `extract_fields_from_text` (icici.py): normalise the text, identify the letter type, and
 * hand the text to that type's extractor; a letter of unknown type is read as an
 * authorization letter.
 */
module IciciExtract {
  import opened Common
  import opened Text
  import opened IciciText
  import opened IciciAuthorization
  import opened IciciQuery
  import opened IciciDenied

  /** The dictionary returned, by the extractor that produced it. */
  datatype LetterFields =
    | Authorization(auth: AuthorizationRecord)
    | Query(query: QueryRecord)
    | Denied(denied: DeniedRecord)

  /** The `"Letter Type"` entry of the dictionary. */
  function LetterTypeOf(f: LetterFields): string
  {
    match f
    case Authorization(a) => a.letterType
    case Query(q) => q.letterType
    case Denied(d) => d.letterType
  }

  /** The three extractors a letter can be handed to. */
  datatype Extractor = AuthorizationExtractor | QueryExtractor | DeniedExtractor

  /** The `"Letter Type"` the extractor writes into its dictionary. */
  function ExtractorName(e: Extractor): string
  {
    match e
    case AuthorizationExtractor => "Authorization Letter"
    case QueryExtractor => "Query Letter"
    case DeniedExtractor => "Denied Letter"
  }

  /**
   * The extractor a letter of type `ty` is handed to: the query and denial extractors for
   * exactly those types, the authorization extractor for the rest, an unknown type included.
   */
  function ExtractorFor(ty: LetterType): (e: Extractor)
    ensures e == QueryExtractor <==> ty == QueryLetter
    ensures e == DeniedExtractor <==> ty == DeniedLetter
    ensures e == AuthorizationExtractor <==> ty.AuthorizationLetter? || ty.UnknownLetterType?
  {
    if ty == QueryLetter then QueryExtractor
    else if ty == DeniedLetter then DeniedExtractor
    else AuthorizationExtractor
  }

  /** A letter of a known type is reported as that type; an unknown one as an authorization letter. */
  lemma ExtractorReportsType(ty: LetterType)
    ensures ty != UnknownLetterType ==> ExtractorName(ExtractorFor(ty)) == LetterTypeName(ty)
    ensures ty == UnknownLetterType ==> ExtractorName(ExtractorFor(ty)) == LetterTypeName(AuthorizationLetter)
  {
  }

  /** The dictionary the extractor `e` returns for the normalised text `t`. */
  function Run(e: Extractor, t: string, withOcr: bool): LetterFields
  {
    match e
    case AuthorizationExtractor => Authorization(AuthorizationFields(t, withOcr))
    case QueryExtractor => Query(QueryFields(t))
    case DeniedExtractor => Denied(DeniedFields(t))
  }

  /** The fields of a letter's text: its normalised text, read by the extractor for its type. */
  function FieldsFromText(text: string, withOcr: bool): LetterFields
  {
    var t := Normalize(text);
    Run(ExtractorFor(IdentifyLetterType(t)), t, withOcr)
  }

  /** Extracting from text that is already normalised gives the same fields. */
  lemma FieldsOfNormalized(text: string, withOcr: bool)
    ensures FieldsFromText(Normalize(text), withOcr) == FieldsFromText(text, withOcr)
  {
    NormalizeIdempotent(text);
  }

  /** The call of the authorization extractor on the normalised text `t`. */
  method RunAuthorization(t: string, withOcr: bool) returns (r: LetterFields)
    ensures r == Run(AuthorizationExtractor, t, withOcr)
  {
    var a := ExtractAuthorizationLetterFields(t, withOcr);
    r := Authorization(a);
  }

  /** The call of the query extractor on the normalised text `t`. */
  method RunQuery(t: string, withOcr: bool) returns (r: LetterFields)
    ensures r == Run(QueryExtractor, t, withOcr)
  {
    var q := ExtractQueryLetterFields(t);
    r := Query(q);
  }

  /** The call of the denial extractor on the normalised text `t`. */
  method RunDenied(t: string, withOcr: bool) returns (r: LetterFields)
    ensures r == Run(DeniedExtractor, t, withOcr)
  {
    var d := ExtractDeniedLetterFields(t);
    r := Denied(d);
  }

  /**
   * `extract_fields_from_text(text, with_ocr)`: the `if`/`elif` chain on the identified type,
   * whose final `else` sends an unknown letter to the authorization extractor.
   */
  method ExtractFieldsFromText(text: string, withOcr: bool) returns (r: LetterFields)
    ensures r == FieldsFromText(text, withOcr)
  {
    var t := Normalize(text);
    var ty := IdentifyLetterType(t);
    if ty == AuthorizationLetter {
      r := RunAuthorization(t, withOcr);
    } else if ty == QueryLetter {
      r := RunQuery(t, withOcr);
    } else if ty == DeniedLetter {
      r := RunDenied(t, withOcr);
    } else {
      r := RunAuthorization(t, withOcr);
    }
  }
}
