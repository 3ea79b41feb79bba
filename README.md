# Insurance letter extractors, modelled in Dafny

This project models the core of a set of Python scripts. Each script reads the text of a
health-insurance letter and pulls out a record of fields, for example the patient's name, the policy
number, the admission and discharge dates, the approved amount and the query or denial reasons. The
letters come from several insurers and third-party administrators:

- ICICI authorization, query and denial letters (`icici.py`). `scan_spam_icici.py` holds verbatim
  copies of four of its functions: `normalize_text` (icici.py:16-20, copied at
  scan_spam_icici.py:256-260, 240 lines further down), and `clean_patient_name`,
  `extract_policy_period` and `extract_authorization_letter_fields` (icici.py:96-497, copied at
  scan_spam_icici.py:262-663, 166 lines further down). It has no `identify_letter_type` and no query
  or denial extractors. The copied functions are modelled once and both files are cited.
- Star Health query and denial letters (`star_query_denied.py`).
- Authorization letters handled by the "spam" extractors (`spam.py`, `spam1.py`, `spam2.py`,
  `spam_md.py`, `spam_scanned.py`).
- The OCR table extractors for scanned and text PDFs (`scannedpdf.py`, `textpdf.py`).
- The MD India approval and query/rejection letters (`mdindia_approval.py`,
  `mdindia_query_rejection.py`).
- The text-PDF authorization extractor (`textpdf_md.py`).

The model works on the letter's text. Reading a PDF, OCR and table detection happen before that
text exists, so they become parameters: the page text; the address read from word positions by
`extract_address_layout` in `mdindia_approval.py`, `spam2.py` and `mdindia_query_rejection.py`; and
for `spam2.py` also the reason cell that camelot finds in `extract_reason_from_pdf`.

Python's regular expressions are modelled once, in module `Regex`, as a backtracking matcher over
a small pattern datatype. It covers literals, character classes, groups, alternation, greedy and
lazy repetition, anchors and case-insensitive matching. `\w` and `\d` are ASCII; `\s` is Python's
full whitespace set, the one `str.strip` also removes. Each
script's patterns are constants of that datatype. `re.search`, `re.match`, `re.findall` and
`re.finditer` are functions over it, and lemmas state what a match means: where it starts, what
its groups hold, and that no earlier start matches.

The scripts fill dictionaries field by field, each store guarded by a successful match. These
become `map<string, Value>` records built by the methods that mirror the extraction functions.
Each method is proved equal to a specification function. Lemmas about those functions state the
promises of the source:
- which keys a record has;
- that each value is the cleaned group of the first pattern that matched;
- that a field keeps its default when no pattern matches;
- the shape of dates, amounts and identifiers;
- the order and numbering of query reasons.

Shared pieces have modules of their own:
- `Text`: strip, split, whitespace squashing, title case, find and replace.
- `Stores`: the guarded-store fold.
- `Common`: the reason collectors.

A `try`/`except` that swallows an error and goes on is modelled as keeping what was stored before
the error.

## Model

| member | source | states |
|---|---|---|
| `Regex.FirstGroup` | icici.py:502-513 | The value is missing exactly when no pattern matches. Otherwise it is group n of the first pattern that matches. |
| `Regex.SearchInOrder` | icici.py:509-513 | The loop over the patterns stops at the first one that matches and returns that pattern's group. |
| `Regex.FindAllFromOrdered` | textpdf_md.py:39 | `finditer`/`findall` yield their matches in text order: each match starts after the one before it. |
| `Regex.GroupTextInfix` | icici.py:512 | A group's text is a contiguous piece of the searched text. |
| `Backtrack.SearchGapWidens` | spam1.py:271-279 | When the `\s*\n\s*` form of a pattern finds something, so does the `\s*` form, because `\s*` already spans line breaks. |
| `Common.CollectKept` | icici.py:587-592 | The loop that appends one value per kept item gives the kept values, in order. |
| `Stores.StoredIs` | spam_md.py:27-100 | With distinct keys, each stored key holds its search's value, or "null" when the search found nothing. Keys not yet stored still hold "null". |
| `Stores.StoreNext` | spam_md.py:28-30 | One `if match: result[key] = …` step extends the fold of the stores by one field. |
| `Text.CollapseSingle` | scannedpdf.py:96 | `' '.join(s.split())` is single-spaced and stripped. |
| `Text.SquashSpacesSingle` | scannedpdf.py:112 | `re.sub(r'\s+', ' ', s)` leaves no run of two whitespace characters, and keeps a non-empty text non-empty. |
| `Text.StripIdempotent` | icici.py:16-20 | Stripping twice is the same as stripping once. |
| `IciciText.NormChar` | icici.py:20 | Each of NBSP, soft hyphen, en dash and em dash becomes a character that is none of them; every other character is kept. |
| `IciciText.ReplacedIsMap` | icici.py:20 | The chain of four `replace` calls keeps the length and maps the text character by character. |
| `IciciText.Normalize` | icici.py:16-20 | The normalised text is stripped, holds none of the four special characters, and is no longer than the input. |
| `IciciText.NormalizeText` | icici.py:16-20 | None is returned exactly for None; any other result is stripped and free of the special characters. |
| `IciciText.NormalizeIdempotent` | icici.py:16-20 | Normalising twice gives the same text as normalising once. |
| `IciciText.NormalizeTextIdempotent` | scan_spam_icici.py:256-260 | The copy's `normalize_text` is idempotent too, None included. |
| `IciciText.NormalizeFixed` | scan_spam_icici.py:256-260 | Stripped text without special characters is left unchanged. |
| `IciciText.TitleType` | icici.py:70-84 | The title tier gives no type exactly when none of the four titles occurs in the first 20 lines (case-insensitive), and never yields the unknown type. |
| `IciciText.KeywordType` | icici.py:86-94 | The keyword tier yields the unknown type exactly when the text contains none of its case-sensitive keywords. |
| `IciciText.IdentifyLetterType` | icici.py:68-94 | A title among the first 20 lines decides the type; otherwise the keyword tier does; the type is unknown exactly when no title and no keyword occurs. |
| `IciciText.TitleDecides` | icici.py:68-85 | Two texts with the same first 20 lines and a title there get the same type, whatever follows. |
| `IciciText.AuthorizationTitleFirst` | icici.py:74-76 | The authorization title outranks every other title and keyword. |
| `IciciText.CutStep` | icici.py:102-104 | Cutting at a separator yields a piece of the original that lacks the separator and everything the input lacked. |
| `IciciText.CutAll` | scan_spam_icici.py:262-275 | The separator loop yields a piece of the input containing none of the separators. |
| `IciciText.CleanPatientName` | icici.py:96-109 | None exactly for a missing or empty name; otherwise a stripped piece of the input containing none of "Policy", "Co-Pay", "UHID", ":" and the double space. |
| `IciciPatterns.Stripped` | icici.py:509-513 | `group(1).strip()` is None exactly when no pattern matched, and is otherwise a stripped piece of the group. |
| `IciciPatterns.StrippedLine` | icici.py:502-541 | The query and denial letters' `[^\n]+` captures, stripped, lie within one line. |
| `IciciPatterns.LetterPatternsCaptureLines` | icici.py:690-746 | The name, UHID, policy and AL pattern lists of the letters set group 1 only through `[^\n]+`. |
| `IciciQuery.AdmissionPatternsCaptureLines` | icici.py:548-558 | The Date of Admission patterns capture a single line. |
| `PolicyPeriod.DayMonthAt` | icici.py:150 | Where `\d{1,2}-[A-Za-z]{3}-` matches, the matched text has that shape. |
| `PolicyPeriod.DateAt` | icici.py:211 | Where `\d{1,2}-[A-Za-z]{3}-\d{4}` matches, the matched text is a date of that shape. |
| `PolicyPeriod.RangeAt` | icici.py:143 | A range match is a date, `\s+to\s+`, and a second date (or its day-month prefix for the partial shape). |
| `PolicyPeriod.FindShapeFrom` | icici.py:179 | `re.search` of a shape returns its leftmost occurrence; None means it occurs nowhere. |
| `PolicyPeriod.LabelValue` | icici.py:124-126 | The value after the label and its optional colon is stripped. |
| `PolicyPeriod.NextNonBlank` | icici.py:134-136 | The next non-blank line: every line skipped is blank and the line found is not. |
| `PolicyPeriod.YearAfter` | icici.py:156-167 | The year after the next line is four digits. |
| `PolicyPeriod.EmptyValueStep` | icici.py:130-176 | The empty-value branch either stops with a non-empty value or keeps the earlier one. |
| `PolicyPeriod.Completion` | icici.py:196-220 | A look-ahead line that starts with a four-digit year completes the stripped value with that year, with a "-" put in between when the value does not already end in one. A line without a leading year completes the value only when the value has a date and no "to" and the line has a date. A completion is never empty. |
| `PolicyPeriod.ToMatch` | icici.py:247 | A match of `\s*to\s*` spans at least the two letters of "to". |
| `PolicyPeriod.Reformat` | icici.py:251-253 | With no range at the start of the value it is returned unchanged; otherwise the result is the first date, " to " and the second date of that range, with the text after it dropped. The result is stripped. |
| `PolicyPeriod.Cleanup` | icici.py:244-258 | The cleaned-up value is stripped. |
| `PolicyPeriodFacts.CleanupRange` | icici.py:244-255 | When the value is exactly one full range (any case of "to", any whitespace around it) whose dates have no lower-case "to", cleanup gives the first date, " to " and the second date. |
| `PolicyPeriodFacts.CleanupHit` | icici.py:244-255 | The same for a range found inside a line: cleaning up its matched text gives "D1 to D2" built from the line's own date slices. |
| `PolicyPeriod.LookAhead` | scan_spam_icici.py:357-386 | The look-ahead loop computes the first completion among lines i+1 to min(i+5, n)-1. |
| `PolicyPeriod.CompleteFrom` | icici.py:196-220 | One look-ahead line: a leading year completes the value, else an end date does (when the value has a date and no "to"). |
| `PolicyPeriod.SkipBlank` | icici.py:134-136 | The skipping loop stops at the next non-blank line. |
| `PolicyPeriod.FindYearAfter` | icici.py:155-167 | The year line loop computes the four-digit year after the next line, if there is one. |
| `PolicyPeriod.ResolveNextLine` | icici.py:142-176 | The tests on the next non-blank line, in the source's order. |
| `PolicyPeriod.ResolveEmptyValue` | scan_spam_icici.py:296-342 | The empty-value branch of the copy, computed step by step. |
| `PolicyPeriod.ResolveValue` | icici.py:178-231 | A non-empty label value: a full range stops the search, an incomplete one is completed by the look-ahead, a digit-bearing one is kept as a fallback. |
| `PolicyPeriod.ExamineLabel` | icici.py:120-231 | The body of the first pass on a label line. |
| `PolicyPeriod.ScanLabels` | icici.py:117-231 | The first pass, with its breaks, over all lines. |
| `PolicyPeriod.ScanRanges` | icici.py:233-242 | The second pass finds the first unlabelled full range. |
| `PolicyPeriod.ExtractPolicyPeriod` | icici.py:111-262 | `extract_policy_period` computes the reference definition of the policy period. |
| `PolicyPeriodFacts.DateShapeFacts` | icici.py:143 | A `D-Mon-YYYY` date is 10 or 11 characters, has no space and starts and ends with a digit. |
| `PolicyPeriodFacts.FirstPassSkip` | icici.py:117-120 | Lines without the label leave the first pass's state alone. |
| `PolicyPeriodFacts.FoundIsCleaned` | icici.py:244-262 | A value found by the first pass is returned after the final cleanup. |
| `PolicyPeriodFacts.NothingLabelled` | icici.py:233-262 | With nothing found by the label, the result is the cleaned first unlabelled range, or None. |
| `PolicyPeriodFacts.RangeLength` | icici.py:179 | A range value is at least three characters long, so it is never the empty or ":" value. |
| `PolicyPeriodFacts.ValueStepShort` | icici.py:130 | An empty or ":" value on a label line that is not resolved changes nothing. |
| `PolicyPeriodFacts.NextLineCases` | icici.py:138-176 | The next non-blank line: a full range there wins; else a partial range plus a year; else the whole line if nothing was kept and it has a digit; else nothing changes. |
| `PolicyPeriodFacts.LabelRangeWins` | icici.py:178-183 | A full range on the first label line is the policy period, cleaned up; when its dates have no lower-case "to", the period is exactly its first date, " to " and its second date. |
| `PolicyPeriodFacts.EmptyValueCases` | scan_spam_icici.py:296-342 | An empty label value is resolved from the next non-blank line with the four outcomes in order. |
| `PolicyPeriodFacts.EmptyValueResolved` | icici.py:130-176 | On the first label line an empty value that resolves decides the result; one that does not leaves the search to the following lines. |
| `PolicyPeriodFacts.FallbackContinues` | scan_spam_icici.py:391-397 | A digit-bearing value that is neither a range nor incomplete is kept, and the search goes on with the next line. |
| `PolicyPeriodFacts.LaterRangeReplacesFallback` | icici.py:225-231 | A later label line with a full range replaces an earlier fallback value; with plain dates the period is exactly "D1 to D2" from that line. |
| `PolicyPeriodFacts.DashScanLocal` | scan_spam_icici.py:358 | The look-ahead depends only on the lines in its window. |
| `PolicyPeriodFacts.LookAheadWindow` | icici.py:192 | Two texts that agree on lines i+1 to i+4 complete an incomplete value on line i alike. |
| `PolicyPeriodFacts.IncompleteEndsWithDash` | icici.py:186-188 | A stripped `D1 to D-Mon-` value ends in "-", so that test alone decides the branch. |
| `PolicyPeriodFacts.NoLabelUsesFirstRange` | icici.py:233-242 | Without any label line, the first unlabelled full range is used, cleaned up; for the first line with a range and plain dates, the period is exactly "D1 to D2" from that line. |
| `PolicyPeriodFacts.SecondPassAt` | icici.py:233-242 | Lines before the first line with a full range do not stop the second pass, so it reports that line's range. |
| `PolicyPeriodFacts.SecondPassFound` | icici.py:238-240 | A range found by the second pass is non-empty. |
| `PolicyPeriodSplit.BlankNormalize` | icici.py:16-20 | A blank line normalises to the empty string. |
| `PolicyPeriodSplit.EmptyCompletesNothing` | icici.py:196-214 | An empty line neither starts with a year nor holds a date, so it completes nothing. |
| `PolicyPeriodSplit.DashScanBlankStep` | icici.py:192-220 | The look-ahead passes over a blank line. |
| `PolicyPeriodSplit.DashScanToNext` | icici.py:192-220 | From the start of its window the look-ahead gives what it gives from the first non-blank line in that window. |
| `PolicyPeriodSplit.LeadYear` | icici.py:199-201 | The year taken from the start of the year line is four digits. |
| `PolicyPeriodSplit.YearCompletes` | icici.py:192-209 | When the first non-blank line after line i lies within lines i+1 to i+4 and starts with a year, the look-ahead returns the stripped value ending in "-" with that year appended. |
| `PolicyPeriodSplit.ValueStepDash` | icici.py:178-223 | A value with no full range that ends in "-" and is completed by the look-ahead stops the search with that completion. |
| `PolicyPeriodSplit.FirstLabelStops` | icici.py:117-223 | When the first label line stops the search with a value, the first pass returns that value. |
| `PolicyPeriodSplit.SplitYearPass` | icici.py:117-223 | On the first label line, a value ending in "-" with no full range, followed by such a year line, makes the first pass return the value with the year appended. |
| `PolicyPeriodSplit.PartialLayout` | icici.py:186 | A partial range match is a date, whitespace, "to", whitespace and a day-month prefix, in that order. |
| `PolicyPeriodSplit.IncompleteFills` | icici.py:186 | A stripped value that is exactly a partial range ends where the match ends. |
| `PolicyPeriodSplit.CleanupPartialYear` | icici.py:244-255 | A partial range match "D1 to D-Mon-" with plain dates, extended by a four-digit year, is cleaned up to its first date, " to " and its day-month prefix followed by the year. |
| `PolicyPeriodSplit.IncompleteWithYear` | icici.py:186-255 | An incomplete value "D1 to D-Mon-" with plain dates, with a year appended, cleans up to "D1 to D-Mon-YYYY". |
| `PolicyPeriodSplit.SplitYearCompletes` | icici.py:117-262 | The split-year case end to end. The first label's value has no full range and ends in "-", and the first non-blank line after it lies within the next four lines and starts with a year. Then the policy period is the value with that year appended, cleaned up. For an incomplete value with plain dates it is exactly "D1 to D-Mon-YYYY". |
| `PolicyPeriodSplit.EmptySplitYearCompletes` | scan_spam_icici.py:296-428 | The empty-value case with a wrapped year. The first label's value is empty or ":", the next non-blank line has no full range but a partial one, and the non-blank line after that starts with a year. Then the policy period is the partial match with the year appended, cleaned up. With plain dates it is exactly "D1 to D-Mon-YYYY". |
| `IciciAuthorization.CleanNumber` | scan_spam_icici.py:583-587 | `clean_number` returns None exactly for a missing or empty value. |
| `IciciAuthorization.CleanNumberNoComma` | scan_spam_icici.py:583-587 | A cleaned amount has no comma and no surrounding whitespace. |
| `IciciAuthorization.CleanNumberDigits` | scan_spam_icici.py:657-658 | Cleaning a run of digits and commas leaves digits only. |
| `IciciAuthorization.FirstGroupDigitComma` | scan_spam_icici.py:509-513 | The group of the first matching `[\d,]+` pattern is digits and commas. |
| `IciciAuthorization.AmountIn` | scan_spam_icici.py:518-522 | A fallback amount comes from a line that holds a `[\d,]+` run. |
| `IciciAuthorization.BillFallbackWindow` | scan_spam_icici.py:514-524 | The fallback amount lies on a label line or on one of the two lines after it. |
| `IciciAuthorization.ScanWindow` | scan_spam_icici.py:518-522 | The inner loop returns the first `[\d,]+` run in lines i to min(i+3, n)-1. |
| `IciciAuthorization.ScanBillLines` | scan_spam_icici.py:515-524 | The outer loop returns the fallback of the first label line whose window has a run. |
| `IciciAuthorization.BillFallbackDigits` | scan_spam_icici.py:514-524 | The fallback amount is digits and commas. |
| `IciciAuthorization.RawTotalDigits` | scan_spam_icici.py:500-524 | The raw Total Bill Amount, from the patterns or from the fallback, is digits and commas. |
| `IciciAuthorization.ExtractTotal` | scan_spam_icici.py:500-524 | The pattern loop and then the line fallback compute the raw total. |
| `IciciAuthorization.FirstLabel` | scan_spam_icici.py:568-581 | The first label whose patterns match: no earlier label's pattern matches. |
| `IciciAuthorization.DateFromFirstLabel` | scan_spam_icici.py:566-581 | The date is `format_date` of the group of the first label, in order, one of whose three patterns matches, and None when none does. |
| `IciciAuthorization.DateFromShape` | scan_spam_icici.py:566-581 | A date found is a rendered `DD-Mon-YYYY` date or a hyphenated text. |
| `IciciAuthorization.ExtractDate` | icici.py:400-415 | The loop of `extract_date` computes that date. |
| `IciciAuthorization.RemarksSection` | scan_spam_icici.py:604-623 | The remarks are None exactly when there is no `Remarks:` label. |
| `IciciAuthorization.RemarksToMarkerLine` | scan_spam_icici.py:608-616 | With the boundary found, the remarks run from the label to the start of the boundary's line, stripped. |
| `IciciAuthorization.RemarksBeforeMarker` | scan_spam_icici.py:610-616 | A boundary on the label's own line gives empty remarks; otherwise they end at a newline after which no newline precedes the boundary. |
| `IciciAuthorization.LineStartEndFacts` | scan_spam_icici.py:612-615 | The end `rfind` picks lies between the label and the boundary, and follows the last newline before the boundary, if any. |
| `IciciAuthorization.RemarksWithoutMarker` | scan_spam_icici.py:617-623 | Without a boundary the remarks stop at the first end marker, or run to the end. |
| `IciciAuthorization.DeductionAmount` | scan_spam_icici.py:628 | The deduction pattern's amount is digits and commas. |
| `IciciAuthorization.NonMedicalShape` | scan_spam_icici.py:625-638 | The fallback yields a stripped non-empty note, or the deduction sentence for a non-empty amount of digits and commas. |
| `IciciAuthorization.DropLeadPunct` | scan_spam_icici.py:642 | Dropping `^[:\s-]+` leaves a suffix of the text that starts with none of them. |
| `IciciAuthorization.DropLeadKeeps` | scan_spam_icici.py:642 | Dropping the leading punctuation of single-spaced stripped text keeps it so. |
| `IciciAuthorization.CleanRemarksShape` | scan_spam_icici.py:640-642 | Cleaned remarks are single-spaced, stripped, and start with neither ":" nor "-". |
| `IciciAuthorization.RemarksFacts` | scan_spam_icici.py:601-642 | The remarks are None exactly when there is no `Remarks:` label and no fallback applies; a value is single-spaced, stripped and starts with neither ":" nor "-". |
| `IciciAuthorization.AmountsAreDigits` | scan_spam_icici.py:657-658 | Both amounts of an authorization letter are digits only. |
| `IciciAuthorization.ExtractAuthorizationLetterFields` | scan_spam_icici.py:430-662 | The extractor returns the record of its reference definition; a name holds no stop token and the policy period is `extract_policy_period`'s. |
| `IciciAuthorization.AuthorizationFieldsType` | icici.py:481-494 | The record's Letter Type is "Authorization Letter". |
| `IciciDate.DayChoices` | icici.py:380-383 | `%d` reads one or two digits giving a day from 1 to 31. |
| `IciciDate.MonthChoices` | icici.py:380-383 | `%m` reads one or two digits giving a month from 1 to 12. |
| `IciciDate.MonthNameFrom` | icici.py:380-383 | `%b` reads a month abbreviation in any case, the first of the table that matches. |
| `IciciDate.StrpTime` | icici.py:386 | A parsed date exists in the calendar. |
| `IciciDate.Render` | icici.py:389 | A rendered `DD-Mon-YYYY` date is eleven characters. |
| `IciciDate.Century` | icici.py:387-388 | A year below 100 becomes 1900 + y above 50 and 2000 + y otherwise; other dates are unchanged. |
| `IciciDate.FirstFormat` | icici.py:384-391 | The first format that parses: none before it does. |
| `IciciDate.FormatDate` | icici.py:375-398 | The loop of `format_date` computes its reference definition. |
| `IciciDate.FormattedDateShape` | icici.py:375-398 | None exactly for a missing or empty input; otherwise a rendered date or the normalised hyphenated input. |
| `IciciDate.FirstFormatDecides` | icici.py:384-389 | The first format that parses decides the result, with the two-digit-year correction applied. |
| `IciciDate.RenderLayout` | icici.py:389 | A rendered date is the two day digits, "-", the month's three letters, "-" and four year digits. |
| `IciciDate.ParseLayout` | icici.py:381 | `%d-%b-%Y` reads a rendered date back as that date. |
| `IciciDate.StrpTimeRendered` | icici.py:381 | Parsing a rendered date with the first format gives the date back. |
| `IciciDate.RenderedIsFixed` | icici.py:375-398 | Formatting an already rendered date (year 100 or later) gives it back unchanged. |
| `IciciReasons.CutDescription` | icici.py:590-591 | Cutting before "Description" leaves no "Description". |
| `IciciReasons.Pairs` | icici.py:585 | `re.findall` gives one `(num, reason)` tuple per match. |
| `IciciReasons.TablePairsNumbered` | icici.py:585 | Every tuple of the row pattern has a non-empty all-digit number. |
| `IciciReasons.CollectRows` | icici.py:587-592 | The tuple loop keeps the rows whose stripped reason is longer than 3, cut before "Description". |
| `IciciReasons.TableRowsShaped` | icici.py:582-592 | Every reason the table yields is written `<digits>. <reason>`. |
| `IciciReasons.NumberDigits` | icici.py:617 | The number a numbered line captures is all digits. |
| `IciciReasons.NumberedLine` | icici.py:617-626 | A numbered line's number is all digits and its reason holds no "Description". |
| `IciciReasons.Classify` | icici.py:612-631 | A body line's row has an all-digit number and no "Description". |
| `IciciReasons.ClassifyLine` | icici.py:774-798 | The reading of one line by the loop body. |
| `IciciReasons.ScanStaysDone` | icici.py:628-631 | Once the loop has broken off at a terminator, later lines change nothing. |
| `IciciReasons.Advance` | icici.py:783-798 | The loop body's updates: a new numbered line flushes the pending row, a terminator flushes it and stops. |
| `IciciReasons.ScanReasonLines` | icici.py:768-798 | The scanner loop computes its reference definition. |
| `IciciReasons.ScanIsWalk` | icici.py:607-631 | The scanner holds back the last numbered row it met and emits it only at the terminator. |
| `IciciReasons.ScanLinesRendered` | icici.py:607-631 | The scanner's reasons are the numbered rows met, the last one only when a terminator line was reached. |
| `IciciReasons.ScanLinesShaped` | icici.py:768-798 | Every reason the line scanner yields is written `<digits>. <reason>`. |
| `IciciReasons.Section` | icici.py:575-578 | The section is a stripped piece of the text, empty when the pattern does not match. |
| `IciciReasons.HeaderTableShaped` | icici.py:756-766 | The reasons of the denial table are written `<digits>. <reason>`. |
| `IciciReasons.CollectHeaderTable` | icici.py:582-592 | The header search and the tuple loop compute the table's reasons. |
| `IciciQuery.StockHitsIff` | icici.py:594-605 | Stock query i is listed exactly when the text mentions it. |
| `IciciQuery.StockHitsAreEntries` | icici.py:603-605 | Every stock hit is the numbered entry of a phrase the text mentions, at its own number. |
| `IciciQuery.CollectStockQueries` | icici.py:594-605 | The loop over the stock queries computes the hits. |
| `IciciQuery.FirstEntryTagged` | icici.py:634-639 | The reason inserted from the section is tagged "1." and has the reason shape. |
| `IciciQuery.InsertFirst` | icici.py:633-639 | A first reason is inserted exactly when there are reasons, none tagged "1.", and the section has a "1" entry; it goes in front, tagged "1.". |
| `IciciQuery.InsertPastMedical` | icici.py:641-645 | The stock first query is put in front exactly when there are reasons, none tagged "1.", and some line mentions a medical history. |
| `IciciQuery.AddPastMedical` | icici.py:641-645 | The line loop with its break computes that insertion. |
| `IciciQuery.QueryReasonsShaped` | icici.py:574-670 | Every reason line of a query letter is written `<digits>. <reason>`. |
| `IciciQuery.QueryReasonsEmpty` | icici.py:574-631 | A query letter has no reasons exactly when the table, the stock queries and the scanner all yield none. |
| `IciciQuery.CollectQueryReasons` | icici.py:574-670 | The reasons are computed as `extract_query_letter_fields` does. |
| `IciciQuery.ExtractQueryLetterFields` | icici.py:498-684 | The query extractor returns the record of its reference definition. |
| `IciciQuery.QueryFieldsType` | icici.py:673-674 | The record's Letter Type is "Query Letter". |
| `IciciQueryOrder.StockEntryTagged` | icici.py:658-667 | Stock entry i is tagged "i." and has the reason shape. |
| `IciciQueryOrder.LabelsDistinct` | icici.py:652 | A line starts with at most one of the labels "1." to "9.". |
| `IciciQueryOrder.SlotIndex` | icici.py:651-655 | The first reason tagged i: no earlier reason is. |
| `IciciQueryOrder.SlotIndexPresent` | icici.py:651-655 | Some reason is tagged i exactly when a first one is found. |
| `IciciQueryOrder.Reconcile` | icici.py:647-670 | The rearrangement is empty exactly when there were no reasons. |
| `IciciQueryOrder.FindSlot` | icici.py:650-655 | The inner loop finds the first reason tagged i, if any. |
| `IciciQueryOrder.PickSlot` | icici.py:649-667 | One round: slot i's first tagged reason, else its stock query when a higher slot up to 5 is tagged. |
| `IciciQueryOrder.PickNonEmpty` | icici.py:649-667 | A round adds at most one reason, exactly when the slot is filled, and that reason is the slot's content tagged i. |
| `IciciQueryOrder.ReconcileReasons` | icici.py:647-670 | The loop `for i in range(1, 6)` and the replacement compute the rearrangement. |
| `IciciQueryOrder.ArrangedContent` | icici.py:649-667 | Every rearranged reason is tagged with its slot and is that slot's content. |
| `IciciQueryOrder.ArrangedOrdered` | icici.py:649 | The slot numbers of the rearranged reasons strictly increase. |
| `IciciQueryOrder.ArrangedNoGaps` | icici.py:657 | Slot i appears exactly when some slot from i to 5 has a tagged reason. |
| `IciciQueryOrder.ReconcileKeepsOrDrops` | icici.py:669-670 | With no reason tagged 1 to 5 the reasons are kept; otherwise every surviving reason is tagged 1 to 5, so higher numbers are dropped. |
| `IciciQueryOrder.ReconcileKeepsFirst` | icici.py:651-654 | The first reason tagged i, for i from 1 to 5, survives. |
| `IciciQueryOrder.ReconcileShaped` | icici.py:647-670 | The rearranged reasons keep the reason shape. |
| `IciciDenied.TermsLine` | icici.py:800-808 | The line the fallback takes is the first that mentions the terms and is longer than ten characters once cut. |
| `IciciDenied.ScanTermsLines` | icici.py:800-808 | The fallback loop computes its reference definition. |
| `IciciDenied.TermsReasonFound` | icici.py:800-808 | The fallback yields at most one reason, and one exactly when some line qualifies. |
| `IciciDenied.TermsReasonText` | icici.py:803-807 | The fallback reason is "1. " and a stripped text longer than ten characters without "Description". |
| `IciciDenied.DeniedReasonsShaped` | icici.py:748-808 | Every reason line of a denial letter is written `<digits>. <reason>`. |
| `IciciDenied.DeniedReasonsEmpty` | icici.py:748-808 | A denial letter has no reasons exactly when its table, its scanner and its terms fallback yield none. |
| `IciciDenied.CollectDeniedReasons` | icici.py:748-808 | The three tiers are computed in order. |
| `IciciDenied.ExtractDeniedLetterFields` | icici.py:686-821 | The denial extractor returns the record of its reference definition. |
| `IciciDenied.DeniedFieldsType` | icici.py:811-812 | The record's Letter Type is "Denied Letter". |
| `IciciExtract.ExtractorFor` | icici.py:830-838 | The query and denial extractors are used for exactly those types, the authorization extractor for an authorization or unknown letter. |
| `IciciExtract.ExtractorReportsType` | icici.py:823-838 | A letter of a known type is reported as that type, an unknown one as an authorization letter. |
| `IciciExtract.FieldsOfNormalized` | icici.py:825 | Extracting from already normalised text gives the same fields. |
| `IciciExtract.ExtractFieldsFromText` | icici.py:823-838 | `extract_fields_from_text` computes its reference definition. |
| `StarLines.MarkerIn` | star_query_denied.py:40-46 | The first marker, in order, that the line contains: no earlier marker occurs in it. |
| `StarLines.MarkerLine` | star_query_denied.py:39-48 | The marker line is the first of the first ten lines that holds any marker, with the first marker it holds. |
| `StarLines.MarkerLineFirst` | spam.py:135-167 | The classifier's verdict: the line and marker it picks are the first ones, and nothing is picked exactly when none of the first ten lines holds a marker. |
| `StarLines.FirstMarkedUnique` | star_query_denied.py:39-46 | Only one line can be both marked and preceded by no marked line. |
| `StarLines.FirstOfTwo` | star_query_denied.py:39-48 | With two markers looked for in order, the first marked line decides: the first marker when that line holds it, else the second. |
| `StarLines.FindMarker` | star_query_denied.py:40-46 | The `if`/`elif` chain on one line finds the first marker it holds. |
| `StarLines.ScanMarkers` | star_query_denied.py:39-48 | The loop over `lines[:10]` with its break finds the marker line. |
| `StarLines.FirstWith` | star_query_denied.py:122-127 | The first line from i on that satisfies a test: no line before it does. |
| `StarLines.ScanMarked` | star_query_denied.py:122-131 | The capture loop computes its reference definition. |
| `StarLines.MarkedBetween` | star_query_denied.py:94-101 | With t the first start line and d the first end line, the capture is what the lines strictly between them yield, and nothing when the end comes first. |
| `StarLines.MarkedMember` | star_query_denied.py:100-101 | Every captured entry is what the keep test yields for a line that does not start the capture. |
| `StarLines.ScanSpanned` | star_query_denied.py:144-158 | The capture with opening and closing pieces computes its reference definition. |
| `StarLines.SpannedBetween` | star_query_denied.py:144-158 | With s the first start line and e the first end line, the capture is the opening piece of s, the lines between, and the closing piece of e. |
| `StarLines.EntryFor` | spam.py:178-179 | The first entry of `field_order` whose label starts the line: no earlier label does. |
| `StarLines.LabelFor` | star_query_denied.py:57-73 | A label found for a line is a prefix of that line. |
| `StarLines.FlushText` | star_query_denied.py:59 | A flushed value is stripped. |
| `StarLines.Step` | spam.py:174-202 | A round that does not advance closes an open field, so the loop terminates. |
| `StarLines.FindLabel` | spam.py:178-187 | The label loop with its break finds the first label that starts the line. |
| `StarLines.StepLine` | star_query_denied.py:54-86 | The body of the `while` loop computes one step. |
| `StarLines.CollectFields` | star_query_denied.py:50-89 | The collector's loop and the final flush compute the collected dictionary. |
| `StarLines.StepKeys` | star_query_denied.py:57-82 | One step stores only under the labels' keys and removes no key. |
| `StarLines.CollectedKeys` | spam.py:170-206 | The collector adds no key outside its labels' keys and removes none. |
| `StarLines.CollectedKeepsDefault` | spam.py:106-115 | A field none of whose labels starts a line keeps its default value. |
| `StarLines.CollectedKeepsUnlabelled` | spam.py:106-115 | A key that no label stores under keeps its default. |
| `StarLines.CollectedValues` | spam.py:181 | Every value is its default or a stripped flushed value. |
| `StarLines.EmptyValueFlushed` | spam.py:180-185 | A label line with nothing after its label, followed by another label line or the end, flushes its field as the empty string. |
| `StarLines.SameLabelsCollect` | star_query_denied.py:57-73 | Two collectors whose labels agree on every line and that share their field order collect alike. |
| `StarQueryDenied.KindOfFirstMarker` | star_query_denied.py:37-48 | A denial letter exactly when the first marked line of the first ten holds "Unable to Admit Claim"; a query letter when it holds only the other marker; unknown when no line is marked. |
| `StarQueryDenied.AddressText` | star_query_denied.py:102-103 | The joined address is stripped. |
| `StarQueryDenied.AddressLinesFrom` | star_query_denied.py:94-101 | Every address line is a non-empty line of the letter that does not start with "To". |
| `StarQueryDenied.AddressBetween` | star_query_denied.py:91-103 | The address is made of the non-empty lines strictly between the first "To" line and the first "Dear Sir/Madam," line. |
| `StarQueryDenied.DenialReasonLinesFrom` | star_query_denied.py:122-131 | Every reason line is a stripped line of the letter that is neither a footer nor all digits. |
| `StarQueryDenied.DenialReasonBetween` | star_query_denied.py:106-136 | The denial reason is made of the lines strictly after the first start-marker line and before the first end-marker line, footers and page numbers left out. |
| `StarQueryDenied.QueryReasonBetween` | star_query_denied.py:138-161 | The query reason is the text after the start marker, the lines between, and the text before the end marker. |
| `StarQueryDenied.KeepRequired` | star_query_denied.py:177-179 | The pruning loop keeps exactly the required keys. |
| `StarQueryDenied.ExtractStarDenialParts` | star_query_denied.py:91-136 | The address and denial-reason captures and their stores. |
| `StarQueryDenied.ExtractStarQueryReason` | star_query_denied.py:138-161 | The query-reason capture and its store. |
| `StarQueryDenied.ExtractStarLines` | star_query_denied.py:37-179 | The whole extraction over the page's stripped non-blank lines. |
| `StarQueryDenied.ExtractStarLetter` | star_query_denied.py:32-184 | `extract_info_from_pdf` once the page text is known. |
| `StarQueryDenied.LabelledType` | star_query_denied.py:50-89 | The labelled fields never touch "Letter Type": it keeps the type the first ten lines give. |
| `StarQueryDenied.PartsKeepKeys` | star_query_denied.py:103-161 | The address and the reasons only overwrite keys already there, and not "Letter Type". |
| `StarQueryDenied.PruneKeys` | star_query_denied.py:163-179 | Pruning keeps "Letter Type", removes "UIN No." from a query letter and every non-required key from a denial letter. |
| `StarQueryDenied.StarFieldsKeys` | star_query_denied.py:163-184 | A query letter reports every default key but "UIN No.", any other letter every default key; "Letter Type" is the first ten lines' verdict. |
| `StarQueryDenied.StarPruned` | star_query_denied.py:163-179 | A query letter's dictionary has no "UIN No."; a denial letter's holds only required keys. |
| `StarQueryDenied.PolicyNoTestRedundant` | star_query_denied.py:57-63 | The denial letter's extra "Policy No." test picks the same label as the loop would. |
| `StarQueryDenied.DenialCollectsAlike` | star_query_denied.py:57-73 | The denial and query collectors collect alike. |
| `SpamLetters.DateTimeAt` | spam.py:140-150 | A line gives a date and time exactly when it holds "Date :" with "Time :" on it or on the next line. |
| `SpamLetters.LineDateTime` | spam.py:140-150 | The two tests of the loop body compute the line's date and time. |
| `SpamLetters.DateTimeLine` | spam.py:139 | The first line of the window that gives a date and time: no earlier one does. |
| `SpamLetters.DateTimeWindow` | spam.py:139-150 | The date and time come from the marker line or one of the four after it: the first that gives one. |
| `SpamLetters.ScanDateTime` | spam.py:139-150 | The window loop with its breaks computes that date and time. |
| `SpamLetters.ExtractSpamHeader` | spam.py:135-167 | The first loop types the letter and finds its date and time. |
| `SpamLetters.ExtractSpamLines` | spam.py:135-206 | Both loops over the page's lines. |
| `SpamLetters.ExtractSpamLetter` | spam.py:105-211 | `extract_info_from_pdf` once the page text is known. |
| `SpamLetters.TypedKeys` | spam.py:134-167 | The first loop only rewrites "Letter Type" and "Date & Time". |
| `SpamLetters.SpamFieldsKeys` | spam.py:106-115 | The dictionary has exactly the eight default keys; type and date are those of the first loop. |
| `SpamLetters.SpamLetterType` | spam.py:135-167 | The first of the first ten lines that holds a marker decides: a query letter for "Pre-Authorisation Query", else a denial letter; otherwise "null". |
| `SpamLetters.SpamDateTime` | spam.py:139-166 | "Date & Time" is set only for a typed letter, from the marker line's window; otherwise it stays "null". |
| `SpamLetters.SpamValues` | spam.py:180-206 | Every labelled value is "null" or a stripped flushed value. |
| `OcrFields.KeepChars` | scannedpdf.py:121 | Deleting the characters outside a class leaves only admitted characters and never lengthens the text. |
| `OcrFields.KeepCharsAdmitted` | scannedpdf.py:121 | A text made only of admitted characters is left exactly as it is. |
| `OcrFields.FillFields` | scannedpdf.py:171-173 | The dictionary has one key per field name, and each key holds the value extracted for that field. |
| `OcrFields.FirstCleanedFromIs` | scannedpdf.py:137-144 | Searching from pattern `i` on gives None exactly when every later pattern either fails to match or cleans to an empty or missing value. Otherwise the value is non-empty and comes from the first pattern that does neither. |
| `OcrFields.FirstCleanedIs` | textpdf.py:143-151 | The field's value is None exactly when no pattern yields a usable value. Otherwise it is the cleaned first match of the first pattern that does, and it is non-empty. |
| `OcrFields.SearchCleaned` | scannedpdf.py:137-144 | The loop over the patterns returns the value of the first pattern whose first match cleans to something non-empty, or None. |
| `OcrFields.DropRemarksLabel` | scannedpdf.py:117 | Dropping a leading "Remarks:" label leaves a contiguous piece of the text. |
| `OcrFields.CleanRemarks` | textpdf.py:119-124 | A cleaned remark is stripped. |
| `OcrFields.CleanRemarksSingle` | scannedpdf.py:115-118 | A cleaned remark has no run of two whitespace characters. |
| `OcrFields.RemarksShape` | textpdf.py:152-175 | The remarks are single-spaced. The approved-request block is always taken when it is found. A generic block is kept only when it is longer than 50 characters. |
| `OcrFields.ExtractRemarks` | scannedpdf.py:146-162 | The method first tries the approved-request pattern; only then does it try the generic pattern under the 50-character rule. |
| `OcrFields.AfterPolicyPeriod` | textpdf.py:138-141 | The text the dates are searched in is either the whole text or a suffix of it, namely the part after the "Policy Period" line. |
| `ScannedPdf.CleanShaped` | scannedpdf.py:89-124 | A cleaned name is collapsed and stripped, has two words or more and does not contain "is discharged". A date has no whitespace and at least one digit. An amount is a non-empty digit run. A period or a remark is single-spaced. An AL Number is longer than three characters, all upper-case letters, digits, '-' or '/'. |
| `ScannedPdf.ExtractField` | scannedpdf.py:126-144 | Remarks go to the remarks search. A date field is searched only after the "Policy Period" line. Other fields are searched in the whole text with the field's patterns in order. |
| `ScannedPdf.FieldValueShaped` | scannedpdf.py:126-144 | Every extracted value other than the remarks is non-empty and has its field's cleaned shape. The value is the first of the field's patterns that yields one; for dates, only the text after the "Policy Period" line is searched. |
| `ScannedPdf.ExtractAllData` | scannedpdf.py:164-177 | Blank text gives None. Otherwise every field of the pattern table is filled and the letter type is set. |
| `ScannedPdf.FieldNamesKeys` | scannedpdf.py:14-64 | The pattern table's fields plus "Letter Type" are exactly the eleven output keys. |
| `ScannedPdf.FilledKeys` | scannedpdf.py:171-175 | Adding the letter type to the filled table leaves every field's own value in place and gives exactly the eleven keys. |
| `ScannedPdf.LetterTypeNotField` | scannedpdf.py:14-64 | "Letter Type" is not one of the pattern table's fields, so setting it overwrites no extracted value. |
| `ScannedPdf.AllDataKeys` | scannedpdf.py:164-177 | The result is None exactly for blank text. Otherwise it has the eleven keys, "Letter Type" is "Authorization Letter", and each field's entry is that field's extracted value. |
| `ScannedPdf.OutputKeysKeys` | scannedpdf.py:187-199 | The output dictionary lists exactly the keys the extraction produces. |
| `ScannedPdf.FormattedSame` | scannedpdf.py:187-199 | Re-keying into the output order changes no entry. |
| `ScannedPdf.ProcessedIsAllData` | scannedpdf.py:179-203 | Processing a letter gives exactly the extracted data, or None when there is none. |
| `TextPdf.CleanShaped` | textpdf.py:92-126 | A cleaned name is collapsed, stripped and longer than two characters. A date has no whitespace. An amount is a non-empty digit run. A period or a remark is single-spaced. |
| `TextPdf.ScannedNameKept` | textpdf.py:99-102 | This name check is weaker than scannedpdf.py's: every name that check keeps, this one keeps unchanged. |
| `TextPdf.ExtractField` | textpdf.py:129-151 | Remarks go to the remarks search. A date field is searched only after the "Policy Period" line. Other fields are searched with their patterns in order. |
| `TextPdf.FieldValueShaped` | textpdf.py:129-151 | Every extracted value other than the remarks is non-empty and has its field's cleaned shape. It comes from the first of the field's patterns that yields one. |
| `TextPdf.ExtractAllData` | textpdf.py:177-197 | Blank text gives None. Otherwise every field of the pattern table is filled and the letter type is set. |
| `TextPdf.AllDataKeys` | textpdf.py:184-197 | The result is None exactly for blank text. Otherwise it has the eleven keys, the letter type is "Authorization Letter", and each field holds its extracted value. |
| `TextPdf.OutputKeysKeys` | textpdf.py:209-221 | The output dictionary's keys are the extracted keys less "AL Number", whose line is commented out. |
| `TextPdf.FormattedDropsAl` | textpdf.py:209-221 | Formatting drops exactly the "AL Number" entry and copies every other entry unchanged. |
| `TextPdf.ProcessedDropsAl` | textpdf.py:199-225 | The processed result is None exactly for blank text. Otherwise it holds every extracted entry except "AL Number", unchanged. |
| `SpamScanned.TitleFromCases` | spam_scanned.py:123 | Title-casing keeps every non-letter and whether each character is a letter. A letter comes out upper-case exactly when it does not follow a letter. |
| `SpamScanned.TitleTitled` | spam_scanned.py:121-124 | A title-cased name has each letter upper-case exactly when it starts a word, and keeps every non-letter. |
| `SpamScanned.Dashed` | spam_scanned.py:128 | Replacing punctuation with '-' keeps the length. |
| `SpamScanned.MonthsFixedSame` | spam_scanned.py:129-136 | The month table maps each upper-case abbreviation to itself, so the replacement loop changes nothing. |
| `SpamScanned.FixMonths` | spam_scanned.py:135-136 | The month loop returns its input unchanged. |
| `SpamScanned.CleanDateShaped` | spam_scanned.py:126-138 | A cleaned date has a digit. It contains no lower-case letter, no 'O', and only word characters, whitespace and '-'. |
| `SpamScanned.CleanPeriodShaped` | spam_scanned.py:140-143 | A Policy Period cleaned as intended has a digit and only word characters, whitespace and '-'. |
| `SpamScanned.CleanNameShaped` | spam_scanned.py:121-124 | A kept name has two words or more, is title-cased, and holds only letters, whitespace and '.'. |
| `SpamScanned.CleanShaped` | spam_scanned.py:114-164 | Every cleaned value has its field's shape: name, date, period, digit-run amount, identifier of at least three admitted upper-case characters, or stripped single-spaced remark. |
| `SpamScanned.MatchValueFrom` | spam_scanned.py:171-176 | A value taken from the loop over the matches is non-empty and is what the cleaner gave for one of those matches. |
| `SpamScanned.FieldFromIs` | spam_scanned.py:166-181 | A field's value is non-empty and is the cleaned group 1 of some match of one of the field's patterns. |
| `SpamScanned.FieldValueShaped` | spam_scanned.py:166-181 | Every extracted value is non-empty and has its field's shape. |
| `SpamScanned.RaisingMatchValue` | spam_scanned.py:170-179 | When the cleaner raises or yields nothing on every value, no match produces a value. |
| `SpamScanned.RaisingFieldFrom` | spam_scanned.py:169-181 | When the cleaner raises or yields nothing on every value, the exception is swallowed pattern by pattern and the field is None. |
| `SpamScanned.PeriodNeverExtracted` | spam_scanned.py:142 | As written, the Policy Period is None for every text, because the cleaner's character class fails to compile. |
| `SpamScanned.CleanPeriodDigits` | spam_scanned.py:140-143 | As intended, the period is kept exactly when the captured text has a digit. |
| `SpamScanned.ScanMatches` | spam_scanned.py:172-176 | The loop over the matches returns the first truthy cleaned value, or Ok(None), or the exception that ends it. |
| `SpamScanned.SearchField` | spam_scanned.py:169-181 | The loop over the patterns skips a pattern that raises or yields nothing, and otherwise returns its value. |
| `SpamScanned.ExtractField` | spam_scanned.py:166-181 | The method's result is the field's value from its patterns in order, with the Policy Period cleaned as intended. |
| `SpamScanned.ExtractAllData` | spam_scanned.py:183-199 | Blank text gives None. Otherwise every field of the pattern table is filled, with the Policy Period cleaned as intended, and the letter type is set. |
| `SpamScanned.AllDataKeys` | spam_scanned.py:183-199 | The result is None exactly for blank text. Otherwise it has the eleven keys, the letter type is "Authorization Letter", and each field holds its extracted value. |
| `SpamScanned.SameCleanSameField` | spam_scanned.py:169-181 | Two cleaners that agree on every value give the same field. |
| `SpamScanned.SameCleanSameMatch` | spam_scanned.py:172-176 | Two cleaners that agree on every value give the same result over the matches. |
| `SpamScanned.AsWrittenOtherFields` | spam_scanned.py:114-164 | The faulty character class affects only the Policy Period: every other field is the same as written and as intended. |
| `SpamScanned.FilledExceptPeriod` | spam_scanned.py:194-198 | Two fillings that agree on every field but the Policy Period differ only in that entry, which one of them leaves None. |
| `SpamScanned.AllDataAsWrittenPeriod` | spam_scanned.py:183-199 | As written, the extracted data is the intended data with the Policy Period set to None. Both are None for the same texts. |
| `SpamScanned.ProcessedIsAllData` | spam_scanned.py:201-222 | Processing a letter gives exactly the extracted data, or None. |
| `MdIndiaApproval.RemarksShape` | mdindia_approval.py:75-81 | Without the "Authorisation Remarks :" … "Please don't collect" pair the remarks are "null". With the pair, they are the text in between, stripped and single-spaced. |
| `MdIndiaApproval.Rows` | mdindia_approval.py:94-97 | The section yields one row per match of the row pattern. |
| `MdIndiaApproval.StatusesLast` | mdindia_approval.py:99-105 | A "date time" key is in the map exactly when some row has it, and it holds the status of the last row with that key. |
| `MdIndiaApproval.TotalSome` | mdindia_approval.py:102-106 | The authorized total exists exactly when every row's comma-stripped amount parses as an integer. |
| `MdIndiaApproval.TotalNoneStays` | mdindia_approval.py:102 | Once one amount fails to parse, no longer prefix of the rows has a total: the exception ends the loop. |
| `MdIndiaApproval.DetailsCases` | mdindia_approval.py:83-108 | With no "Authorization Details :" section the result is exactly the empty details with amount 0. With a section, the result succeeds exactly when every row's amount parses, and its "Date and Time" keys are exactly the rows' keys. |
| `MdIndiaApproval.ScanRows` | mdindia_approval.py:99-108 | The loop over the rows gives every row's status under its key and the sum of the amounts, or the int() error when an amount does not parse. |
| `MdIndiaApproval.ExtractAuthorizationDetails` | mdindia_approval.py:83-108 | The result is the empty details when there is no section; otherwise it is what the row loop gives for the section's rows. |
| `MdIndiaApproval.StoresIs` | mdindia_approval.py:110-147 | With distinct keys, the successive conditional stores hold only their own keys. A key is present exactly when its pattern matched, and then it holds the stripped group. |
| `MdIndiaApproval.TableDataIs` | mdindia_approval.py:110-147 | `extract_table_data` holds a key from its seven-field table exactly when that field's pattern matched, and then the key holds the stripped group. |
| `MdIndiaApproval.Merge` | mdindia_approval.py:178 | `update` gives the union of both key sets. A merged key takes the table's value; every other key keeps its default. |
| `MdIndiaApproval.StoreIf` | mdindia_approval.py:185-187 | A conditional store adds its key only on a match and changes no other key. |
| `MdIndiaApproval.LetterTyped` | mdindia_approval.py:189-191 | "Letter Type" becomes "Approval" exactly when "Cashless Authorisation Letter" occurs. No other key changes. |
| `MdIndiaApproval.StoreToken` | mdindia_approval.py:193-195 | One search-and-store step is the conditional store of the pattern's stripped first group. |
| `MdIndiaApproval.ExtractInfo` | mdindia_approval.py:149-205 | The record is built by these steps: the defaults; then the layout's address; then the table merge; then the details, which end the stores when an amount fails to parse; then the remarks, claim number, letter type, MD ID and Rohini ID. |
| `MdIndiaApproval.CompletedKeys` | mdindia_approval.py:180-199 | The stores after the table add exactly "Authorization Details" and "Remarks" to the key set. |
| `MdIndiaApproval.CompletedDetails` | mdindia_approval.py:180-183 | After those stores, "Authorization Details" holds the parsed details and "Remarks" holds the authorization remarks. |
| `MdIndiaApproval.CompletedLetterType` | mdindia_approval.py:189-191 | After those stores, "Letter Type" is "Approval" when the cashless title occurs, and keeps its earlier value otherwise. |
| `MdIndiaApproval.CompletedTokens` | mdindia_approval.py:185-199 | Claim Number, MD ID No and Rohini ID each take their token when its label matches, and keep their earlier value otherwise. |
| `MdIndiaApproval.StartedIs` | mdindia_approval.py:175-178 | After the address and the merge, the record keeps the default key set. It holds the layout's address, every table value, and the default for every other key. |
| `MdIndiaApproval.InfoHasKeys` | mdindia_approval.py:150-168 | Whatever happens to the text, the record has exactly the fourteen default keys. |
| `MdIndiaApproval.InfoLetterType` | mdindia_approval.py:189-191 | "Letter Type" is "Approval" exactly when there is text, its amounts parse and "Cashless Authorisation Letter" occurs. Otherwise it is "null". |
| `MdIndiaApproval.InfoAddress` | mdindia_approval.py:175 | "Hospital Address" is the layout's address in every case. |
| `MdIndiaApproval.InfoDetails` | mdindia_approval.py:180-183 | When the details parse, the record holds them and the authorization remarks. |
| `MdIndiaApproval.TokenCaptures` | mdindia_approval.py:185-199 | Each of the three token patterns captures only non-whitespace characters. |
| `MdIndiaApproval.TokenNoSpace` | mdindia_approval.py:185-187 | A token captured by such a pattern contains no whitespace. |
| `MdIndiaApproval.InfoTokens` | mdindia_approval.py:185-199 | Claim Number, MD ID No and Rohini ID are each "null" or a single whitespace-free token. |
| `MdIndiaQueryRejection.ReasonCases` | mdindia_query_rejection.py:54-73 | The reason after a standalone "1" wins, whitespace-collapsed and stripped. Failing that, it is the "following reasons:" text, stripped only. Failing both, it is "null". |
| `MdIndiaQueryRejection.StoreToken` | mdindia_query_rejection.py:94-96 | One search-and-store step is the conditional store of the pattern's stripped first group. |
| `MdIndiaQueryRejection.StoreMdi` | mdindia_query_rejection.py:109-115 | The MDI ID is stored from the colon form, or from the whitespace form when the colon form does not occur. Nothing is stored when neither occurs. |
| `MdIndiaQueryRejection.ExtractFields` | mdindia_query_rejection.py:93-122 | The name, letter type, policy number, MDI ID, CCN and reason are stored in the source's order, each from its own search. |
| `MdIndiaQueryRejection.ExtractInfo` | mdindia_query_rejection.py:75-127 | The record starts from the defaults and takes the layout's address. When the page has text, the field searches then fill it. |
| `MdIndiaQueryRejection.DefaultsIs` | mdindia_query_rejection.py:76-84 | The initial record has the seven keys, each "null". |
| `MdIndiaQueryRejection.FilledKeys` | mdindia_query_rejection.py:93-122 | The stores change no key set: every key they write is already a default key. |
| `MdIndiaQueryRejection.FilledValues` | mdindia_query_rejection.py:93-122 | Each field holds what its search found, or its earlier value. "Letter Type" depends only on the denial title, "Reason" is the page's reason, and the address is kept. |
| `MdIndiaQueryRejection.StartIs` | mdindia_query_rejection.py:76-91 | Before the searches, the record holds the seven keys, the layout's address and "null" for the searched fields. |
| `MdIndiaQueryRejection.InfoKeysAddress` | mdindia_query_rejection.py:75-127 | The record always has exactly the seven keys and the layout's address. Without text, every other key is "null". |
| `MdIndiaQueryRejection.InfoValues` | mdindia_query_rejection.py:93-122 | "Letter Type" is "Authorization Denied" exactly when "DENIAL OF AUTHORIZATION LETTER" occurs, and "Query Letter" otherwise. Every searched field holds its search's value, or "null" when the search found nothing. |
| `MdIndiaQueryRejection.NameLine` | mdindia_query_rejection.py:94-96 | A name is found exactly when its label matches. It is stripped and never spans a line break. |
| `MdIndiaQueryRejection.TokenKept` | mdindia_query_rejection.py:105-107 | A token pattern's value is found exactly when the pattern matches, and it is a non-empty whitespace-free token. |
| `MdIndiaQueryRejection.TokenFields` | mdindia_query_rejection.py:105-120 | Policy No and CCN are each found exactly when their label matches, and each is a non-empty whitespace-free token. |
| `MdIndiaQueryRejection.MdiToken` | mdindia_query_rejection.py:110-115 | An MDI pattern's value is found exactly when the pattern matches, and it consists of letters, digits and hyphens. |
| `MdIndiaQueryRejection.MdiForms` | mdindia_query_rejection.py:109-115 | The colon form wins whenever it occurs. The whitespace form is the fallback. The ID is missing exactly when neither form occurs, and it is always letters, digits and hyphens. |
| `Spam2.ExtractTextReason` | spam2.py:66-82 | The loop over the two table patterns returns the first match, whitespace-collapsed. After it comes the "following reasons:" text, then "null". |
| `Spam2.TextReasonCases` | spam2.py:57-82 | The order is the Particular(s) table, then the Reason(s) table, then the "following reasons:" text (stripped only), then "null". A table reason is single-spaced and stripped. |
| `Spam2.DefaultsIs` | spam2.py:125-139 | The initial record has the thirteen keys, "Hospital Address" among them. |
| `Spam2.StoreToken` | spam2.py:153-155 | One search-and-store step is the conditional store of the pattern's stripped first group. |
| `Spam2.ExtractInfo` | spam2.py:124-178 | The record starts from the defaults and takes the layout's address. When there is text, it then gets the table merge and the claim number, letter type, MD ID, Rohini ID and reason stores. |
| `Spam2.StartedIs` | spam2.py:146-150 | After the address and the merge, the record has the default keys and the layout's address. Each table key holds its table value or "null", and every late key other than the address is "null". |
| `Spam2.CompletedKeys` | spam2.py:152-173 | The stores after the table add no key. |
| `Spam2.CompletedLate` | spam2.py:152-173 | Each late key holds its search's value or its earlier value. "Letter Type" becomes "Approval" only on the cashless title, and "Reason" is the extracted reason. |
| `Spam2.CompletedOther` | spam2.py:152-173 | The stores after the table leave every other key unchanged. |
| `Spam2.InfoKeysAddress` | spam2.py:124-178 | The record always has the thirteen keys and the layout's address. |
| `Spam2.InfoTable` | spam2.py:84-122 | Each table field holds its pattern's stripped group when the text matches that pattern, and "null" otherwise. |
| `Spam2.CompletedTable` | spam2.py:149-150 | The late stores keep every table field as merged. |
| `Spam2.InfoNoText` | spam2.py:141-176 | Without text, every late key other than the address stays "null". |
| `Spam2.CompletedStarted` | spam2.py:146-173 | After the merge and the late stores, each late key holds what its search found, or "null". |
| `Spam2.InfoLetterType` | spam2.py:157-160 | "Letter Type" is "Approval" exactly when "Cashless Authorisation Letter" occurs, and "null" otherwise. |
| `Spam2.InfoTokensReason` | spam2.py:152-173 | Claim Number, MD ID No and Rohini ID are each "null" or a whitespace-free token. The reason is the camelot reason, else the text reason, and "null" without text. |
| `SpamMd.AuthorizationDataIs` | spam_md.py:5-102 | The result has exactly the thirteen keys. Each holds its field's value, or "null" when the field's search found nothing. |
| `SpamMd.StoreFields` | spam_md.py:27-100 | The thirteen conditional stores, in the source's order, give the fold of the field values over the defaults. |
| `SpamMd.ExtractMedicalAuthorizationData` | spam_md.py:5-102 | The method builds the same dictionary that the field-by-field definition describes. |
| `SpamMd.LetterTypeCases` | spam_md.py:62-67 | "Letter Type" is "Enhancement" exactly when "ENHANCEMENT" occurs. It is "Initial" exactly when only "INITIAL" occurs, and "Approval" exactly when neither does. |
| `SpamMd.AlNumberToken` | spam_md.py:28-30 | "AL Number" is "null" exactly when the claim-number label does not match. Otherwise it is a non-empty run of upper-case letters and digits. |
| `SpamMd.UhidDigits` | spam_md.py:98-100 | "UHID Number" is "null" exactly when "Rohini ID :" with digits does not occur. Otherwise it is a non-empty run of digits. |
| `SpamMd.ApprovedDigits` | spam_md.py:33-35 | "Approved Amount" is "null" exactly when the pattern does not match. Otherwise it is the amount with its commas removed, all digits. |
| `SpamMd.BillShape` | spam_md.py:93-95 | "Total Bill Amount" is "null" exactly when the pattern does not match. Otherwise it is "Rs. " and the digits and commas, followed by ".00". |
| `SpamMd.RemarksSingleSpaced` | spam_md.py:85-90 | The remarks are "null" without the section, and single-spaced with it. |
| `SpamMd.NameAndPolicyStripped` | spam_md.py:70-77 | The name and the policy number are "null" when their label does not match, and stripped when it does. |
| `SpamMd.DateTimeLast` | spam_md.py:38-41 | "Date & Time" is "null" exactly when no enhancement row matches. Otherwise it is the last match's date and time joined by a space. |
| `SpamMd.PeriodJoined` | spam_md.py:80-82 | "Policy Period" is "null" exactly when the two-date pattern does not match. Otherwise it is the two dates joined by " to ". |
| `SpamMd.AddressOfNamed` | spam_md.py:54-59 | An address exists exactly when both "IC Name" patterns match, and then it starts with "hospital name: ". |
| `SpamMd.AddressNamed` | spam_md.py:54-59 | "Hospital Address" is "null" exactly when one of the two "IC Name" patterns fails. Otherwise it starts with "hospital name: ". |
| `SpamMd.AllTagged` | spam_md.py:129-141 | There is one result per input text. |
| `SpamMd.ExtractFromMultiplePdfs` | spam_md.py:129-141 | The loop returns, in input order, each text's dictionary tagged with its position. |
| `SpamMd.SourceTagsDistinct` | spam_md.py:137 | Different positions get different "pdf_N" tags. |
| `SpamMd.AllTaggedEntries` | spam_md.py:133-141 | The i-th result is the i-th text's dictionary plus "source_file" = "pdf_{i+1}", and no two results share a tag. |
| `SpamMd.Record.Validate` | spam_md.py:143-158 | The dictionary is updated in place: every "null" or empty value becomes None. The method returns the same object. |
| `SpamMd.ValidatedIs` | spam_md.py:148-150 | Validation keeps the keys. It leaves no "null" or empty string, replaces exactly those values with None, and keeps every other value. |
| `SpamMd.ValidatedIdempotent` | spam_md.py:148-150 | Validating twice is the same as validating once. |
| `SpamMd.ValidatedData` | spam_md.py:143-158 | Applied to an extracted dictionary, validation turns every field that was not found into None. "Letter Type" always stays a value. |
| `Spam1.ExtractInfo` | spam1.py:233-299 | The record starts from the five "null" defaults. When the page has text, the name, policy number, period and the two dates are each stored when found. |
| `Spam1.StoreDate` | spam1.py:270-281 | The date is stored from the first pattern, or from the newline pattern when the first fails. Nothing is stored when both fail. |
| `Spam1.DefaultsIs` | spam1.py:233-239 | The initial record has the five keys, each "null". |
| `Spam1.FilledValues` | spam1.py:248-294 | The stores keep the key set. Each key holds its search's value, or its earlier value. |
| `Spam1.InfoIs` | spam1.py:233-299 | The record always has the five keys. Without text every value is "null"; with text each key holds its search's value, or "null". |
| `Spam1.NameShape` | spam1.py:248-255 | A name is found exactly when "Patient Name :" … "Age :" matches, possibly across lines. It is then single-spaced and stripped. |
| `Spam1.PolicyCaptures` | spam1.py:258 | The policy pattern captures only upper-case letters and digits. |
| `Spam1.PolicyToken` | spam1.py:258-260 | The policy number is found exactly when its pattern matches. It is then a non-empty run of upper-case letters and digits, the group unchanged. |
| `Spam1.PeriodJoined` | spam1.py:263-268 | The period is found exactly when its pattern matches. It is then the two dates joined by " To ", with a capital T. |
| `Spam1.FallbackNeverUsed` | spam1.py:271-294 | The newline pattern can match only where the first date pattern already does, so each date is the first pattern's group. |
| `Spam1.InfoDates` | spam1.py:270-294 | The two dates of the record are the first patterns' groups, or "null". |
| `TextPdfMd.ExtractPdfData` | textpdf_md.py:14-87 | The method's result is the initial record followed by the eleven conditional stores, in the source's order. |
| `TextPdfMd.StoreGroup` | textpdf_md.py:46-49 | A date is stored as its pattern's group when the pattern matches. Nothing else changes. |
| `TextPdfMd.StoreStripped` | textpdf_md.py:57-59 | A cell is stored as its stripped group when its pattern matches. Nothing else changes. |
| `TextPdfMd.StoreEarlier` | textpdf_md.py:26-49 | The stores from the claim number to the dates, in order. |
| `TextPdfMd.StoreAmount` | textpdf_md.py:31-36 | The approved amount is "Rs. " and the first amount pattern's group, or the worded pattern's group when the first fails. |
| `TextPdfMd.StoreDateTimes` | textpdf_md.py:38-41 | "Date & Time" becomes the list of every date-time pair when there is at least one, and is otherwise left as it was. |
| `TextPdfMd.StoreLater` | textpdf_md.py:51-82 | The stores from the hospital address to the bill amount, in order. |
| `TextPdfMd.StoreHospital` | textpdf_md.py:51-54 | The hospital address is stored when its pattern matches. |
| `TextPdfMd.StoreRemarks` | textpdf_md.py:71-77 | The remarks are stored when both markers are found in the required order. |
| `TextPdfMd.PutIs` | textpdf_md.py:28-29 | A conditional store keeps the key set. It writes only its key, and only when a value was found. |
| `TextPdfMd.InitialKeys` | textpdf_md.py:15-20 | The initial record has exactly the thirteen keys. |
| `TextPdfMd.InitialIs` | textpdf_md.py:15-22 | Initially every value is None, except "Letter Type" = "Approval" and the fixed UHID sentence. |
| `TextPdfMd.EarlierIs` | textpdf_md.py:26-49 | The stores up to the dates keep the key set. They write only their five keys, each with the value found or the earlier one. |
| `TextPdfMd.LaterIs` | textpdf_md.py:51-82 | The stores from the hospital address on keep the key set. They write only their six keys, each with the value found or the earlier one. |
| `TextPdfMd.RecordIs` | textpdf_md.py:14-87 | The record holds the thirteen keys and the two fixed values. Every other key holds what its search found, or None. |
| `TextPdfMd.RupeesShape` | textpdf_md.py:36 | A found amount made of digits and commas is rendered as "Rs. " and that amount. |
| `TextPdfMd.AmountForms` | textpdf_md.py:32-36 | The "Rs." form wins and the amount-in-words form is the fallback. The amount is missing exactly when neither matches, and is rendered "Rs. " and digits and commas. |
| `TextPdfMd.BillShape` | textpdf_md.py:80-82 | The bill amount is found exactly when its pattern matches, and is rendered "Rs. " and digits and commas. |
| `TextPdfMd.ClaimWord` | textpdf_md.py:27-29 | The AL Number is found exactly when the claim pattern matches, and is a non-empty run of word characters. |
| `TextPdfMd.CellValue` | textpdf_md.py:57-69 | A cell value is found exactly when its label matches. It is stripped and contains neither "\|" nor a line break. |
| `TextPdfMd.HospitalParts` | textpdf_md.py:52-54 | The address is found exactly when its pattern matches. It is then the stripped name and the stripped place joined by ", Near ". |
| `TextPdfMd.PairsAt` | textpdf_md.py:41 | Each list entry is its match's date and time joined by a space. |
| `TextPdfMd.DateTimesIs` | textpdf_md.py:39-41 | "Date & Time" has one entry per match, in text order. Each entry is its date and time joined by a space. |
| `TextPdfMd.RemarksCases` | textpdf_md.py:71-77 | The remarks are captured exactly when the label occurs at an index greater than 0 and "Head Office:" follows it. They are then single-spaced and stripped. |
| `TextPdfMd.PdfDataKeys` | textpdf_md.py:14-22 | The result has the thirteen keys, "Letter Type" = "Approval" and the fixed UHID sentence. |
| `TextPdfMd.PdfDataAmounts` | textpdf_md.py:26-49 | Each of the AL Number, the two amounts, "Date & Time" and the two dates is None exactly when its search finds nothing. Otherwise it has the shape its pattern guarantees. |
| `TextPdfMd.PdfDataCells` | textpdf_md.py:56-69 | The name, policy number and period are None exactly when their label does not match. Otherwise each is a stripped cell without "\|" or a line break. |
| `TextPdfMd.PdfDataPlaces` | textpdf_md.py:51-77 | The hospital address is None exactly when its pattern fails. The remarks are None exactly when the label is missing, at index 0 or not followed by "Head Office:"; otherwise they are single-spaced and stripped. |

## Left out

- Reading PDFs (fitz, pdfplumber, PyPDF2), OCR through Tesseract, image preprocessing and camelot table detection. These are foreign libraries. Their output, the page text, is a parameter of the model.
- `extract_address_layout` in `mdindia_approval.py` (lines 7-35, called at line 175), `spam2.py` (lines 7-36, called at line 146) and `mdindia_query_rejection.py` (lines 6-52, called at line 91). It works on PDF word positions, so its result is the `address` parameter of `MdIndiaApproval.Info`, `Spam2.Info` and `MdIndiaQueryRejection.Info`.
- The camelot part of `extract_reason_from_pdf` in `spam2.py` (lines 38-82, called at line 173): the reason cell camelot reads from the table. It is the `camelot` parameter of `Spam2.Info`; the text fallback after it is modelled.
- `extract_reason_from_pdf` in `mdindia_approval.py` (lines 37-73). `extract_info_from_pdf` never calls it.
- The page-joining loop of `textpdf_md.py` (lines 11-12). It concatenates library output; the joined text is the parameter.
- The Flask/HTTP endpoints, file uploads, Tesseract paths, `print` calls, warnings and JSON output. These are I/O.
- Commented-out code in every script.
- The date-format check in `spam_md.py` (lines 153-156). It only prints, so it changes nothing that is returned.
- General `re` and `strptime` semantics. Only the constructs the scripts' patterns use are modelled, and only the date formats they parse; `\w`, `\d` and case folding are ASCII.
- `strftime` padding of years below 1000. Dates are rendered with the year as written.
- PolicyPeriodFacts.CleanupRange: it assumes that neither date holds a lower-case "to" in its three month letters (for example "1-tox-2023"). The case-sensitive `re.sub(r"\s*to\s*", ...)` would split such a date first. No English month abbreviation contains "to".
- PolicyPeriodFacts.CleanupHit: the same assumption on the dates (`PlainDates`).
- PolicyPeriodFacts.LabelRangeWins: its exact "D1 to D2" result is stated only for plain dates (`PlainDates`); for other dates only the cleaned-up value is stated.
- PolicyPeriodFacts.LaterRangeReplacesFallback: as for LabelRangeWins, the exact result is stated only for plain dates.
- PolicyPeriodFacts.NoLabelUsesFirstRange: as for LabelRangeWins, the exact result is stated only for plain dates.
- PolicyPeriodSplit.CleanupPartialYear: stated only for plain dates (`PlainDates`), for the same reason as CleanupRange.
- PolicyPeriodSplit.IncompleteWithYear: stated only for plain dates, as CleanupPartialYear.
- PolicyPeriodSplit.SplitYearCompletes: its exact "D1 to D-Mon-YYYY" result is stated only for an incomplete value with plain dates; otherwise only the cleaned-up value is stated. It covers the case where the year starts the first non-blank line of the window; a window whose first non-blank line does not start with a year is described only by `PolicyPeriod.LookAhead` and `PolicyPeriod.Completion`.
- PolicyPeriodSplit.EmptySplitYearCompletes: its exact result is stated only for plain dates, as SplitYearCompletes.
- IciciAuthorization.DateFromShape: it states that a date that was not re-rendered is hyphenated text, but not which group text it came from.
- IciciReasons.ScanReasonLines: it follows the source's scanner, which outputs a row only when a later numbered row or the terminator is met. No lemma singles out the case where the last row is never output because the REMARKS section ends before the terminator.
- Spam1.NameShape: it states the character shape of the patient name, not that the name stops at the first "Age :".
- MdIndiaQueryRejection.MdiToken: it does not state that the MDI ID is non-empty.
- MdIndiaQueryRejection.MdiForms: it does not state that the MDI ID is non-empty.
- SpamMd.Record.Validate: the admission and discharge values are not proved to have a date shape.

## Findings

| source | as written | input that shows it | evidently intended | confidence | as-written member | corrected member |
|---|---|---|---|---|---|---|
| spam_scanned.py:142 | The Policy Period is cleaned with `re.sub(r'[^\w\s-to]', '-', value)`. `\s-t` is a range whose start is a class, so compiling it raises "bad character range \s-t". `extract_field` (lines 166-181) swallows the error, so Policy Period is always None. | Any text in which a Policy Period pattern captures a non-empty value, e.g. "Policy Period : 01-Apr-2023 To 31-Mar-2024". | `[^\w\s\-to]`: replace every character that is not a word character, whitespace or '-' by '-', and keep the period when it has a digit. | not executed | `SpamScanned.PeriodNeverExtracted` | `SpamScanned.CleanPeriodDigits` |
