/** The order form: quantity, phone number and colour, with the phone check on submit. */
module OrderModal {
  import opened Common
  import opened Types

  /** The colours the form's select offers, the first being the default. */
  const ColorOptions: seq<string> := ["White", "Classic Cream", "Woodland Gray"]

  const PhoneError: string := "Please enter a valid phone number."

  /** A character of JavaScript's regular-expression class `\s`: white space and line terminators. */
  predicate IsJsWhitespace(c: char)
  {
    || c == ' ' || c == '\t' || c == '\n' || c == '\U{B}' || c == '\U{C}' || c == '\r'
    || c == '\U{A0}' || c == '\U{1680}' || '\U{2000}' <= c <= '\U{200A}'
    || c == '\U{2028}' || c == '\U{2029}' || c == '\U{202F}' || c == '\U{205F}'
    || c == '\U{3000}' || c == '\U{FEFF}'
  }

  /** A character of the class `[0-9-+\s()]`. */
  predicate IsPhoneChar(c: char)
  {
    '0' <= c <= '9' || c == '-' || c == '+' || IsJsWhitespace(c) || c == '(' || c == ')'
  }

  /** Whether `s` matches `/^[0-9-+\s()]*$/`, consuming one character at a time. */
  function MatchesPhonePattern(s: string): (m: bool)
    ensures m <==> forall i :: 0 <= i < |s| ==> IsPhoneChar(s[i])
  {
    s == [] || (IsPhoneChar(s[0]) && MatchesPhonePattern(s[1..]))
  }

  /**
   * The submit check: the pattern matches and the number has at least 7
   * characters.  Every character the pattern admits is one UTF-16 code unit,
   * so `|s|` agrees with JavaScript's `length` on every string that matches.
   */
  predicate PhoneAccepted(s: string)
  {
    MatchesPhonePattern(s) && |s| >= 7
  }

  /** A number is accepted iff it has at least 7 characters and all of them are allowed. */
  lemma PhoneAcceptedIff(s: string)
    ensures PhoneAccepted(s) <==> |s| >= 7 && forall i :: 0 <= i < |s| ==> IsPhoneChar(s[i])
  {
  }

  /** The empty string passes the pattern but not the length check. */
  lemma EmptyPhoneRejected()
    ensures MatchesPhonePattern("") && !PhoneAccepted("")
  {
  }

  /** One character outside the class rejects the number, however long it is. */
  lemma ForeignCharRejected(s: string, i: int)
    requires 0 <= i < |s| && !IsPhoneChar(s[i])
    ensures !PhoneAccepted(s)
  {
  }

  /** A typical number is accepted. */
  lemma SamplePhoneAccepted()
    ensures PhoneAccepted("555-9999")
  {
  }

  /** `Math.max(1, v)` for an integer input: the least value that is at least 1 and at least `v`. */
  function ClampQuantity(v: int): (q: int)
    ensures q >= 1 && q >= v
    ensures q == v || q == 1
  {
    if v < 1 then 1 else v
  }

  /** The form's state while the modal is mounted. */
  class Form {
    var quantity: int
    var phoneNumber: string
    var color: string
    var error: string

    /** The quantity is at least 1 and the colour is one the select offers. */
    ghost predicate Valid()
      reads this
    {
      quantity >= 1 && color in ColorOptions
    }

    constructor ()
      ensures Valid()
      ensures quantity == 1 && phoneNumber == "" && color == ColorOptions[0] && error == ""
    {
      quantity, phoneNumber, color, error := 1, "", "White", "";
    }

    /** The quantity field's `onChange`, for an integer input. */
    method ChangeQuantity(input: int)
      requires Valid()
      modifies this`quantity
      ensures Valid()
      ensures quantity == ClampQuantity(input)
    {
      quantity := if 1 < input then input else 1;
    }

    /** The phone field's `onChange`: any text is stored as typed. */
    method ChangePhoneNumber(input: string)
      modifies this`phoneNumber
      ensures phoneNumber == input
    {
      phoneNumber := input;
    }

    /** The colour select's `onChange`; the select only offers its three options. */
    method ChangeColor(option: string)
      requires Valid() && option in ColorOptions
      modifies this`color
      ensures Valid()
      ensures color == option
    {
      color := option;
    }

    /**
     * `handleSubmit`: on a bad number set the error and send nothing; otherwise
     * clear the error and send the fields exactly as held.
     */
    method HandleSubmit() returns (sent: Option<OrderData>)
      requires Valid()
      modifies this`error
      ensures Valid()
      ensures sent.Some? <==> PhoneAccepted(phoneNumber)
      ensures sent.Some? ==> sent.value == OrderData(quantity, phoneNumber, color) && error == ""
      ensures sent.Some? ==> sent.value.quantity >= 1 && sent.value.color in ColorOptions
      ensures sent.None? ==> error == PhoneError
    {
      if !MatchesPhonePattern(phoneNumber) || |phoneNumber| < 7 {
        error := PhoneError;
        return None;
      }
      error := "";
      sent := Some(OrderData(quantity, phoneNumber, color));
    }
  }
}
