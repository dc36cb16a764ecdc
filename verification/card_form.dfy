/**
 * The add-card form: grouping of the card number in fours, `MM/YY` expiry formatting, CVV
 * sanitising, card-brand detection, and the form's validation and error handling.
 */
module CardForm {
  import opened Wrappers
  import opened Lists
  import opened Text

  /**
   * `value.replace(/\s+/g, "").replace(/[^0-9]/gi, "").match(/\d{4,16}/g)[0]`, or "" when there is
   * no match. The cleaned string is all digits, so the first greedy match of 4 to 16 digits starts
   * at index 0 and takes as many digits as are there, up to 16.
   */
  function CardMatch(value: string): (m: string)
    ensures AllDigits(m) && |m| <= 16
    ensures m == [] <==> |Digits(value)| < 4
    ensures m != [] ==> |m| <= |Digits(value)| && m == Digits(value)[..|m|] && (|m| == 16 || |m| == |Digits(value)|)
  {
    var v := Digits(value);
    if |v| < 4 then "" else if |v| <= 16 then v else v[..16]
  }

  /** The pieces `match.substring(i, i + 4)` for i = 0, 4, 8, …: groups of four, the last possibly shorter. */
  function Chunks(m: string): (parts: seq<string>)
    ensures |parts| == (|m| + 3) / 4
    ensures forall k :: 0 <= k < |parts| ==> 1 <= |parts[k]| <= 4
    ensures forall k :: 0 <= k < |parts| - 1 ==> |parts[k]| == 4
    decreases |m|
  {
    if m == [] then [] else if |m| <= 4 then [m] else [m[..4]] + Chunks(m[4..])
  }

  /** The strings one after the other. */
  function Concat(parts: seq<string>): string {
    if parts == [] then "" else parts[0] + Concat(parts[1..])
  }

  /** The specification of `formatCardNumber`: the grouped match, or the raw input when there are no groups. */
  function FormattedCardNumber(value: string): string {
    var parts := Chunks(CardMatch(value));
    if |parts| > 0 then Join(parts, " ") else value
  }

  /** One step of the grouping loop: the chunk starting at `i`, then the chunks after it. */
  lemma ChunksFrom(m: string, i: nat)
    requires i < |m|
    ensures var end := if i + 4 < |m| then i + 4 else |m|;
      Chunks(m[i..]) == [m[i..end]] + (if i + 4 < |m| then Chunks(m[i + 4..]) else [])
  {
    var rest := m[i..];
    if i + 4 < |m| {
      assert |rest| > 4;
      assert rest[..4] == m[i..i + 4];
      assert rest[4..] == m[i + 4..];
      assert Chunks(rest) == [rest[..4]] + Chunks(rest[4..]);
    } else {
      assert 0 < |rest| <= 4;
      assert m[i..|m|] == rest;
      assert Chunks(rest) == [rest];
    }
  }

  /** `formatCardNumber`, with its loop over the match in steps of four. */
  method FormatCardNumber(value: string) returns (r: string)
    ensures r == FormattedCardNumber(value)
  {
    var found := CardMatch(value);
    var parts: seq<string> := [];
    var i := 0;
    var len := |found|;
    while i < len
      invariant 0 <= i
      invariant i <= len ==> parts + Chunks(found[i..]) == Chunks(found)
      invariant i > len ==> parts == Chunks(found)
      invariant parts == [] <==> i == 0
    {
      var end := if i + 4 < len then i + 4 else len;
      ChunksFrom(found, i);
      var piece := found[i..end];
      if i + 4 < len {
        assert parts + Chunks(found[i..]) == (parts + [piece]) + Chunks(found[i + 4..]);
      } else {
        assert parts + Chunks(found[i..]) == parts + [piece];
      }
      parts := parts + [piece];
      i := i + 4;
    }
    assert parts == Chunks(found) by {
      if i <= len {
        assert found[i..] == [];
        assert parts + Chunks([]) == parts;
      }
    }
    if |parts| > 0 {
      r := Join(parts, " ");
    } else {
      r := value;
    }
  }

  /** Gluing the groups back together gives the match. */
  lemma {:induction false} ConcatChunks(m: string)
    ensures Concat(Chunks(m)) == m
    decreases |m|
  {
    if |m| > 4 {
      var parts := Chunks(m);
      assert parts[1..] == Chunks(m[4..]);
      ConcatChunks(m[4..]);
    }
  }

  /** A filter that keeps every character of the parts and drops the space undoes a join. */
  lemma {:induction false} FilterJoin(parts: seq<string>, keep: char -> bool)
    requires !keep(' ')
    requires forall k :: 0 <= k < |parts| ==> AllKept(parts[k], keep)
    ensures Filter(Join(parts, " "), keep) == Concat(parts)
    decreases |parts|
  {
    if parts != [] {
      var first := parts[0];
      assert AllKept(first, keep);
      FilterKeepsAll(first, keep);
      assert Concat(parts) == first + Concat(parts[1..]);
      if |parts| > 1 {
        var rest := Join(parts[1..], " ");
        assert Join(parts, " ") == (first + " ") + rest;
        FilterJoin(parts[1..], keep);
        FilterConcat(first + " ", rest, keep);
        FilterConcat(first, " ", keep);
        FilterSpace(keep);
        calc {
          Filter(Join(parts, " "), keep);
          Filter(first + " ", keep) + Filter(rest, keep);
          (Filter(first, keep) + Filter(" ", keep)) + Filter(rest, keep);
          (first + []) + Concat(parts[1..]);
          { assert first + [] == first; }
          Concat(parts);
        }
      } else {
        assert Concat(parts[1..]) == [];
      }
    }
  }

  lemma FilterSpace(keep: char -> bool)
    requires !keep(' ')
    ensures Filter(" ", keep) == []
  {
    assert " "[1..] == [];
  }

  /** Every character of `s` passes `keep`. */
  predicate AllKept(s: string, keep: char -> bool) {
    forall j :: 0 <= j < |s| ==> keep(s[j])
  }

  /** The groups of a digit string are digit strings. */
  lemma ChunksAreDigits(m: string)
    requires AllDigits(m)
    ensures forall k, j :: 0 <= k < |Chunks(m)| && 0 <= j < |Chunks(m)[k]| ==> IsDigit(Chunks(m)[k][j])
  {
    ConcatChunks(m);
    forall k, j | 0 <= k < |Chunks(m)| && 0 <= j < |Chunks(m)[k]| ensures IsDigit(Chunks(m)[k][j]) {
      ChunkInside(Chunks(m), k, j);
    }
  }

  /** A character of one part sits at some position of the concatenation. */
  lemma {:induction false} ChunkInside(parts: seq<string>, k: nat, j: nat)
    requires k < |parts| && j < |parts[k]|
    ensures parts[k][j] in Concat(parts)
    decreases |parts|
  {
    if k == 0 {
      assert Concat(parts)[j] == parts[0][j];
    } else {
      ChunkInside(parts[1..], k - 1, j);
    }
  }

  /** Removing the spaces from the grouped number (or its non-digits) gives back the matched digits. */
  lemma GroupedNumberStripsToMatch(value: string)
    requires |Digits(value)| >= 4
    ensures RemoveWhitespace(FormattedCardNumber(value)) == CardMatch(value)
    ensures Digits(FormattedCardNumber(value)) == CardMatch(value)
  {
    var m := CardMatch(value);
    ChunksAreDigits(m);
    ConcatChunks(m);
    assert forall k :: 0 <= k < |Chunks(m)| ==> AllKept(Chunks(m)[k], NotJsWhitespace);
    assert forall k :: 0 <= k < |Chunks(m)| ==> AllKept(Chunks(m)[k], IsDigit);
    FilterJoin(Chunks(m), NotJsWhitespace);
    FilterJoin(Chunks(m), IsDigit);
  }

  /** Re-formatting a formatted number changes nothing (the input handler is stable). */
  lemma FormatCardNumberIdempotent(value: string)
    ensures FormattedCardNumber(FormattedCardNumber(value)) == FormattedCardNumber(value)
  {
    if |Digits(value)| >= 4 {
      GroupedNumberStripsToMatch(value);
    }
  }

  /** A grouped number of n digits has n + (n - 1) / 4 characters: one space between groups. */
  lemma {:induction false} GroupedLength(m: string)
    requires m != []
    ensures |Join(Chunks(m), " ")| == |m| + (|m| - 1) / 4
    decreases |m|
  {
    if |m| > 4 {
      assert Chunks(m)[1..] == Chunks(m[4..]);
      GroupedLength(m[4..]);
    }
  }

  /** `value.replace("/", "")`: the first slash removed, if there is one. */
  function RemoveFirstSlash(s: string): (r: string)
    ensures '/' !in s ==> r == s
    ensures '/' in s ==> |r| == |s| - 1
  {
    if s == [] then s else if s[0] == '/' then s[1..] else [s[0]] + RemoveFirstSlash(s[1..])
  }

  /** `formatExpiry`: the first two digits, a slash and up to two more, once there are two digits. */
  function FormatExpiry(value: string): (r: string)
    ensures |r| <= 5
    ensures |Digits(value)| < 2 ==> r == Digits(value)
    ensures |Digits(value)| >= 2 ==> |r| >= 3 && r[2] == '/' && r[..2] == Digits(value)[..2]
    ensures |Digits(value)| >= 2 ==> AllDigits(r[..2] + r[3..])
  {
    var v := Digits(value);
    if |v| >= 2 then v[..2] + "/" + v[2..if |v| < 4 then |v| else 4] else v
  }

  /** The digits of a formatted expiry are the first four digits of the input. */
  lemma ExpiryKeepsDigits(value: string)
    ensures var v := Digits(value); Digits(FormatExpiry(value)) == v[..if |v| < 4 then |v| else 4]
  {
    var v := Digits(value);
    if |v| >= 2 {
      var head := v[..2];
      var tail := v[2..if |v| < 4 then |v| else 4];
      assert FormatExpiry(value) == head + "/" + tail;
      FilterKeepsAll(head, IsDigit);
      FilterKeepsAll(tail, IsDigit);
      assert Filter("/", IsDigit) == [];
      FilterConcat(head, "/", IsDigit);
      FilterConcat(head + "/", tail, IsDigit);
      assert Filter(head + "/", IsDigit) == head;
      assert head + tail == v[..if |v| < 4 then |v| else 4];
    } else {
      FilterKeepsAll(v, IsDigit);
    }
  }

  /** Re-formatting a formatted expiry changes nothing. */
  lemma FormatExpiryIdempotent(value: string)
    ensures FormatExpiry(FormatExpiry(value)) == FormatExpiry(value)
  {
    ExpiryKeepsDigits(value);
  }

  /** Removing one slash before formatting makes no difference: slashes are dropped as non-digits. */
  lemma {:induction false} SlashRemovalIrrelevant(value: string)
    ensures Digits(RemoveFirstSlash(value)) == Digits(value)
    ensures FormatExpiry(RemoveFirstSlash(value)) == FormatExpiry(value)
    decreases |value|
  {
    if value != [] && value[0] != '/' {
      SlashRemovalIrrelevant(value[1..]);
      FilterConcat([value[0]], RemoveFirstSlash(value[1..]), IsDigit);
      FilterConcat([value[0]], value[1..], IsDigit);
      assert value == [value[0]] + value[1..];
    } else if value != [] {
      FilterConcat([value[0]], value[1..], IsDigit);
      assert value == [value[0]] + value[1..];
    }
  }

  /** The CVV field: `value.replace(/[^0-9]/g, "").slice(0, 4)`. */
  function SanitizeCvv(value: string): (r: string)
    ensures AllDigits(r) && |r| <= 4
    ensures |r| <= |Digits(value)| && r == Digits(value)[..|r|]
    ensures |r| == 4 || r == Digits(value)
  {
    var v := Digits(value);
    if |v| <= 4 then v else v[..4]
  }

  /** Sanitising a sanitised CVV changes nothing. */
  lemma SanitizeCvvIdempotent(value: string)
    ensures SanitizeCvv(SanitizeCvv(value)) == SanitizeCvv(value)
  {
    FilterKeepsAll(SanitizeCvv(value), IsDigit);
  }

  datatype CardBrand = Visa | Mastercard | Amex

  /** `getCardType`: matched against the number without white space, in the order visa, mastercard, amex. */
  function GetCardType(number: string): (r: Option<CardBrand>)
    ensures var c := RemoveWhitespace(number);
      && (r == Some(Visa) <==> StartsWith(c, "4"))
      && (r == Some(Mastercard) <==> |c| >= 2 && c[0] == '5' && '1' <= c[1] <= '5')
      && (r == Some(Amex) <==> |c| >= 2 && c[0] == '3' && (c[1] == '4' || c[1] == '7'))
  {
    var c := RemoveWhitespace(number);
    if StartsWith(c, "4") then Some(Visa)
    else if StartsWith(c, "51") || StartsWith(c, "52") || StartsWith(c, "53") || StartsWith(c, "54")
      || StartsWith(c, "55") then Some(Mastercard)
    else if StartsWith(c, "34") || StartsWith(c, "37") then Some(Amex)
    else None
  }

  /** Grouping the number does not change the detected brand. */
  lemma BrandSurvivesGrouping(value: string)
    requires |Digits(value)| >= 4
    ensures GetCardType(FormattedCardNumber(value)) == GetCardType(Digits(value))
  {
    GroupedNumberStripsToMatch(value);
    var v := Digits(value);
    FilterKeepsAll(v, NotJsWhitespace);
    assert RemoveWhitespace(v) == v;
  }

  datatype FormData = FormData(cardNumber: string, expiry: string, cvv: string, name: string, saveCard: bool)

  const InitialForm := FormData("", "", "", "", true)

  const CardNumberError := "Please enter a valid card number"
  const ExpiryError := "Please enter a valid expiry date"
  const CvvError := "Please enter a valid CVV"
  const NameError := "Please enter the cardholder name"

  /** One rule of `validateForm`: its message is recorded under its key when the rule fails. */
  function RecordIf(errors: map<string, string>, fails: bool, key: string, message: string): (r: map<string, string>)
    ensures forall k :: k in r <==> k in errors || (fails && k == key)
    ensures forall k :: k in r ==> r[k] == if fails && k == key then message else errors[k]
  {
    if fails then errors[key := message] else errors
  }

  /** The errors `validateForm` records: one entry per failing field and no other key. */
  function FormErrors(f: FormData): (errors: map<string, string>)
    ensures "cardNumber" in errors <==> |RemoveWhitespace(f.cardNumber)| < 16
    ensures "expiry" in errors <==> |f.expiry| < 5
    ensures "cvv" in errors <==> |f.cvv| < 3
    ensures "name" in errors <==> IsBlank(f.name)
    ensures forall k :: k in errors ==> (k == "cardNumber" || k == "expiry" || k == "cvv" || k == "name") && errors[k] != ""
  {
    var cardFails := f.cardNumber == "" || |RemoveWhitespace(f.cardNumber)| < 16;
    var expiryFails := f.expiry == "" || |f.expiry| < 5;
    var cvvFails := f.cvv == "" || |f.cvv| < 3;
    var nameFails := Trim(f.name) == "";
    assert cardFails <==> |RemoveWhitespace(f.cardNumber)| < 16;
    assert nameFails <==> IsBlank(f.name);
    var e1 := RecordIf(map[], cardFails, "cardNumber", CardNumberError);
    var e2 := RecordIf(e1, expiryFails, "expiry", ExpiryError);
    var e3 := RecordIf(e2, cvvFails, "cvv", CvvError);
    var e4 := RecordIf(e3, nameFails, "name", NameError);
    assert forall k :: k in e4 <==>
      (cardFails && k == "cardNumber") || (expiryFails && k == "expiry") || (cvvFails && k == "cvv")
      || (nameFails && k == "name");
    e4
  }

  /** The form is valid exactly when every field passes its rule. */
  lemma FormValidIff(f: FormData)
    ensures FormErrors(f) == map[] <==>
      |RemoveWhitespace(f.cardNumber)| >= 16 && |f.expiry| >= 5 && |f.cvv| >= 3 && !IsBlank(f.name)
  {
    if |RemoveWhitespace(f.cardNumber)| < 16 {
      assert "cardNumber" in FormErrors(f);
    }
  }

  /** A value typed into one of the inputs. */
  datatype Change =
    | CardNumberInput(value: string)
    | ExpiryInput(value: string)
    | CvvInput(value: string)
    | NameInput(value: string)
    | SaveCardToggle(checked: bool)
  {
    /** The input's `name` attribute, the key of its error. */
    function FieldName(): string {
      match this
      case CardNumberInput(_) => "cardNumber"
      case ExpiryInput(_) => "expiry"
      case CvvInput(_) => "cvv"
      case NameInput(_) => "name"
      case SaveCardToggle(_) => "saveCard"
    }
  }

  /** The form after `handleChange`: the edited field formatted as its input demands, the others kept. */
  function ChangedForm(f: FormData, c: Change): (r: FormData)
    ensures c.CardNumberInput? ==> r == f.(cardNumber := FormattedCardNumber(c.value))
    ensures c.ExpiryInput? ==> r == f.(expiry := FormatExpiry(c.value)) && |r.expiry| <= 5
    ensures c.CvvInput? ==> r == f.(cvv := SanitizeCvv(c.value)) && |r.cvv| <= 4 && AllDigits(r.cvv)
    ensures c.NameInput? ==> r == f.(name := c.value)
    ensures c.SaveCardToggle? ==> r == f.(saveCard := c.checked)
  {
    SlashRemovalIrrelevant(if c.ExpiryInput? then c.value else "");
    match c
    case CardNumberInput(v) => f.(cardNumber := FormattedCardNumber(v))
    case ExpiryInput(v) => f.(expiry := FormatExpiry(RemoveFirstSlash(v)))
    case CvvInput(v) => f.(cvv := SanitizeCvv(v))
    case NameInput(v) => f.(name := v)
    case SaveCardToggle(b) => f.(saveCard := b)
  }

  /** The errors after `handleChange`: an error shown for the edited field is blanked, nothing else moves. */
  function ClearedErrors(errors: map<string, string>, field: string): (r: map<string, string>)
    ensures r.Keys == errors.Keys
    ensures field in r ==> r[field] == ""
    ensures forall k :: k in errors && k != field ==> r[k] == errors[k]
  {
    if field in errors && errors[field] != "" then errors[field := ""] else errors
  }

  class AddCardPage {
    var formData: FormData
    var errors: map<string, string>
    var isLoading: bool

    constructor ()
      ensures formData == InitialForm && errors == map[] && !isLoading
    {
      formData := InitialForm;
      errors := map[];
      isLoading := false;
    }

    /** `handleChange`. */
    method HandleChange(c: Change)
      modifies this`formData, this`errors
      ensures formData == ChangedForm(old(formData), c)
      ensures errors == ClearedErrors(old(errors), c.FieldName())
    {
      formData := ChangedForm(formData, c);
      errors := ClearedErrors(errors, c.FieldName());
    }

    /** `validateForm`: replaces the errors and reports whether there are none. */
    method ValidateForm() returns (ok: bool)
      modifies this`errors
      ensures errors == FormErrors(formData)
      ensures ok <==> errors == map[]
    {
      errors := FormErrors(formData);
      ok := |errors| == 0;
    }

    /** `handleSubmit`: on a valid form the card is accepted and the page navigates back. */
    method HandleSubmit() returns (navigateBack: bool)
      modifies this`errors, this`isLoading
      ensures errors == FormErrors(formData)
      ensures isLoading == (old(isLoading) && !navigateBack)
      ensures navigateBack <==> errors == map[]
    {
      var ok := ValidateForm();
      navigateBack := false;
      if ok {
        isLoading := true;
        isLoading := false;
        navigateBack := true;
      }
    }
  }
}
