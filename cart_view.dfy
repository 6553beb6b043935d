/** The shopping-cart page of the storefront (frontend/src/components/Cart.js):
    totals, the shipping tariff, phone normalisation and validation, the
    delivery-draft check, and the page state that remove, update and
    checkout change. */
module CartView {
  import opened Wrappers
  import opened Text
  import opened ShopData
  import opened Patterns

  // ---------------------------------------------------------------------
  // Totals

  function LineTotal(l: CartLine): int {
    l.product.price * l.quantity
  }

  /** Σ price × quantity over the lines (the reduce of calculateTotal). */
  function LinesTotal(lines: seq<CartLine>): int {
    if lines == [] then 0 else LineTotal(lines[0]) + LinesTotal(lines[1..])
  }

  /** Σ quantity over the lines (the reduce of calculateItemsCount). */
  function Quantities(lines: seq<CartLine>): int {
    if lines == [] then 0 else lines[0].quantity + Quantities(lines[1..])
  }

  /** `reduce((total, item) => total + price * quantity, acc)`: JavaScript's
      reduce folds from the left, carrying the running total. */
  function FoldTotal(lines: seq<CartLine>, acc: int): int {
    if lines == [] then acc else FoldTotal(lines[1..], acc + LineTotal(lines[0]))
  }

  /** `reduce((count, item) => count + quantity, acc)`, folded from the left. */
  function FoldQuantities(lines: seq<CartLine>, acc: int): int {
    if lines == [] then acc else FoldQuantities(lines[1..], acc + lines[0].quantity)
  }

  /** The left folds compute the sums: the running total is the start value
      plus the sum over the lines not yet visited. */
  lemma {:induction false} FoldsAreSums(lines: seq<CartLine>, acc: int)
    ensures FoldTotal(lines, acc) == acc + LinesTotal(lines)
    ensures FoldQuantities(lines, acc) == acc + Quantities(lines)
  {
    if lines != [] {
      FoldsAreSums(lines[1..], acc + LineTotal(lines[0]));
      FoldsAreSums(lines[1..], acc + lines[0].quantity);
    }
  }

  /** calculateTotal: the reduce from 0 over the cart's lines, 0 for a
      missing cart; it is the sum of price × quantity. */
  function Subtotal(cart: Option<seq<CartLine>>): (r: int)
    ensures cart.None? ==> r == 0
    ensures cart.Some? ==> r == LinesTotal(cart.value)
  {
    match cart
    case None => 0
    case Some(lines) => FoldsAreSums(lines, 0); FoldTotal(lines, 0)
  }

  /** calculateItemsCount: the reduce from 0 over the cart's lines, 0 for a
      missing cart; it is the sum of the quantities. */
  function ItemsCount(cart: Option<seq<CartLine>>): (r: int)
    ensures cart.None? ==> r == 0
    ensures cart.Some? ==> r == Quantities(cart.value)
  {
    match cart
    case None => 0
    case Some(lines) => FoldsAreSums(lines, 0); FoldQuantities(lines, 0)
  }

  /** Both sums split over a concatenation, so the order in which reduce
      visits the lines does not matter. */
  lemma {:induction false} TotalsAppend(a: seq<CartLine>, b: seq<CartLine>)
    ensures LinesTotal(a + b) == LinesTotal(a) + LinesTotal(b)
    ensures Quantities(a + b) == Quantities(a) + Quantities(b)
  {
    if a == [] {
      assert a + b == b;
    } else {
      assert (a + b)[0] == a[0];
      assert (a + b)[1..] == a[1..] + b;
      TotalsAppend(a[1..], b);
    }
  }

  /** An empty cart costs nothing and holds nothing; the two-line example
      [(100 × 2), (50 × 1)] has subtotal 250 and item count 3. */
  lemma TotalsExamples(p: Product, q: Product)
    requires p.price == 100 && q.price == 50
    ensures Subtotal(Some([])) == 0 && ItemsCount(Some([])) == 0
    ensures Subtotal(Some([CartLine(p, 2), CartLine(q, 1)])) == 250
    ensures ItemsCount(Some([CartLine(p, 2), CartLine(q, 1)])) == 3
  {
    var lines := [CartLine(p, 2), CartLine(q, 1)];
    assert lines[1..] == [CartLine(q, 1)];
    assert lines[1..][1..] == [];
    assert LinesTotal(lines[1..]) == 50 && Quantities(lines[1..]) == 1;
    assert LinesTotal(lines) == 250 && Quantities(lines) == 3;
  }

  /** calculateShippingCost: the tariff of the selected delivery method. */
  function ShippingCost(shippingMethod: string): (r: int)
    ensures r == 500 <==> shippingMethod == "EXPRESS"
    ensures r == 0 <==> shippingMethod == "PICKUP"
    ensures shippingMethod != "EXPRESS" && shippingMethod != "PICKUP" ==> r == 250
  {
    match shippingMethod
    case "EXPRESS" => 500
    case "PICKUP" => 0
    case _ => 250   // 'STANDARD' and every other value
  }

  /** The amount shown as due: subtotal plus shipping. */
  function AmountDue(cart: Option<seq<CartLine>>, shippingMethod: string): int {
    Subtotal(cart) + ShippingCost(shippingMethod)
  }

  lemma AmountDueBounds(cart: Option<seq<CartLine>>, shippingMethod: string)
    ensures AmountDue(cart, shippingMethod) - Subtotal(cart) in {0, 250, 500}
    ensures shippingMethod == "STANDARD" ==> AmountDue(cart, shippingMethod) == Subtotal(cart) + 250
  {
  }

  // ---------------------------------------------------------------------
  // Local edits of the line list

  /** The list edit after a successful update: every line of the product
      gets the new quantity. */
  function WithQuantity(lines: seq<CartLine>, productId: int, quantity: int): (r: seq<CartLine>)
    ensures |r| == |lines|
  {
    if lines == [] then []
    else
      var head := if lines[0].product.id == productId then lines[0].(quantity := quantity) else lines[0];
      [head] + WithQuantity(lines[1..], productId, quantity)
  }

  /** The updated list, position by position: the product's lines carry the
      new quantity and every other line is untouched. */
  lemma {:induction false} WithQuantityPointwise(lines: seq<CartLine>, productId: int, quantity: int)
    ensures var r := WithQuantity(lines, productId, quantity);
            forall i :: 0 <= i < |lines| ==>
              r[i] == if lines[i].product.id == productId then lines[i].(quantity := quantity) else lines[i]
  {
    if lines != [] {
      WithQuantityPointwise(lines[1..], productId, quantity);
      var r := WithQuantity(lines, productId, quantity);
      forall i | 0 <= i < |lines|
        ensures r[i] == if lines[i].product.id == productId then lines[i].(quantity := quantity) else lines[i]
      {
        if i > 0 {
          assert r[i] == WithQuantity(lines[1..], productId, quantity)[i - 1];
          assert lines[i] == lines[1..][i - 1];
        }
      }
    }
  }

  /** The list edit after a successful remove: the lines of other products. */
  function WithoutProduct(lines: seq<CartLine>, productId: int): (r: seq<CartLine>)
    ensures |r| <= |lines|
  {
    if lines == [] then []
    else if lines[0].product.id == productId then WithoutProduct(lines[1..], productId)
    else [lines[0]] + WithoutProduct(lines[1..], productId)
  }

  /** The lines of one product. */
  function OnlyProduct(lines: seq<CartLine>, productId: int): (r: seq<CartLine>)
    ensures |r| <= |lines|
  {
    if lines == [] then []
    else if lines[0].product.id == productId then [lines[0]] + OnlyProduct(lines[1..], productId)
    else OnlyProduct(lines[1..], productId)
  }

  /** Removal keeps exactly the lines of the other products. */
  lemma {:induction false} WithoutProductMembers(lines: seq<CartLine>, productId: int)
    ensures forall l :: l in WithoutProduct(lines, productId) <==> l in lines && l.product.id != productId
  {
    if lines != [] {
      WithoutProductMembers(lines[1..], productId);
      assert lines == [lines[0]] + lines[1..];
    }
  }

  /** Removal keeps the original order: it distributes over concatenation,
      and a single line stays exactly when it is of another product. */
  lemma {:induction false} WithoutProductAppend(a: seq<CartLine>, b: seq<CartLine>, productId: int)
    ensures WithoutProduct(a + b, productId) == WithoutProduct(a, productId) + WithoutProduct(b, productId)
  {
    if a == [] {
      assert a + b == b;
    } else {
      assert (a + b)[0] == a[0];
      assert (a + b)[1..] == a[1..] + b;
      WithoutProductAppend(a[1..], b, productId);
    }
  }

  /** Removal splits the cart in two, what is kept and what is dropped. */
  lemma {:induction false} RemoveSplitsLines(lines: seq<CartLine>, productId: int)
    ensures multiset(WithoutProduct(lines, productId)) + multiset(OnlyProduct(lines, productId)) == multiset(lines)
  {
    if lines != [] {
      RemoveSplitsLines(lines[1..], productId);
      assert lines == [lines[0]] + lines[1..];
    }
  }

  /** The totals of the two parts add up to those of the cart. */
  lemma {:induction false} RemoveSplitsTotals(lines: seq<CartLine>, productId: int)
    ensures LinesTotal(lines) == LinesTotal(WithoutProduct(lines, productId)) + LinesTotal(OnlyProduct(lines, productId))
    ensures Quantities(lines) == Quantities(WithoutProduct(lines, productId)) + Quantities(OnlyProduct(lines, productId))
  {
    if lines != [] {
      RemoveSplitsTotals(lines[1..], productId);
      var w := WithoutProduct(lines[1..], productId);
      var o := OnlyProduct(lines[1..], productId);
      if lines[0].product.id == productId {
        assert ([lines[0]] + o)[1..] == o;
      } else {
        assert ([lines[0]] + w)[1..] == w;
      }
    }
  }

  /** After an update the item count is the count of the other lines plus
      the new quantity once per line of that product. */
  lemma {:induction false} UpdateCount(lines: seq<CartLine>, productId: int, quantity: int)
    ensures Quantities(WithQuantity(lines, productId, quantity)) ==
              Quantities(WithoutProduct(lines, productId)) + quantity * |OnlyProduct(lines, productId)|
  {
    if lines != [] {
      UpdateCount(lines[1..], productId, quantity);
      var w := WithoutProduct(lines[1..], productId);
      var o := OnlyProduct(lines[1..], productId);
      var rest := WithQuantity(lines[1..], productId, quantity);
      if lines[0].product.id == productId {
        var head := lines[0].(quantity := quantity);
        assert WithQuantity(lines, productId, quantity) == [head] + rest;
        assert ([head] + rest)[1..] == rest;
        assert OnlyProduct(lines, productId) == [lines[0]] + o;
        assert quantity * |[lines[0]] + o| == quantity + quantity * |o|;
      } else {
        assert WithQuantity(lines, productId, quantity) == [lines[0]] + rest;
        assert ([lines[0]] + rest)[1..] == rest;
        assert ([lines[0]] + w)[1..] == w;
      }
    }
  }

  // ---------------------------------------------------------------------
  // Phone numbers

  /** What formatPhone returns: the digits, a leading 8 turned into 7, and a
      '+' in front of an 11-digit number that starts with 7. */
  function NormalizedPhone(phone: string): string {
    var cleaned := Digits(phone);
    var national := if StartsWith(cleaned, "8") then "7" + cleaned[1..] else cleaned;
    if StartsWith(national, "7") && |national| == 11 then "+" + national else national
  }

  lemma {:induction false} DigitsAppend(s: string, c: char)
    ensures Digits(s + [c]) == Digits(s) + (if IsDigit(c) then [c] else [])
  {
    if s != [] {
      assert (s + [c])[1..] == s[1..] + [c];
      DigitsAppend(s[1..], c);
    } else {
      assert [c][1..] == [];
    }
  }

  /** formatPhone, with the digit-stripping `replace` written as a loop. */
  method FormatPhone(phone: string) returns (r: string)
    ensures r == NormalizedPhone(phone)
  {
    var cleaned := "";
    var i := 0;
    while i < |phone|
      invariant 0 <= i <= |phone|
      invariant cleaned == Digits(phone[..i])
    {
      DigitsAppend(phone[..i], phone[i]);
      assert phone[..i + 1] == phone[..i] + [phone[i]];
      if IsDigit(phone[i]) {
        cleaned := cleaned + [phone[i]];
      }
      i := i + 1;
    }
    assert phone[..|phone|] == phone;
    if StartsWith(cleaned, "8") {
      cleaned := "7" + cleaned[1..];
    }
    if StartsWith(cleaned, "7") && |cleaned| == 11 {
      return "+" + cleaned;
    }
    return cleaned;
  }

  /** The normalised phone consists of digits, with at most a leading '+'. */
  lemma PhoneShape(phone: string)
    ensures var r := NormalizedPhone(phone);
            forall i :: 0 <= i < |r| ==> IsDigit(r[i]) || (i == 0 && r[i] == '+')
    ensures var r := NormalizedPhone(phone);
            r != [] && r[0] == '+' ==> |r| == 12 && r[1] == '7'
  {
  }

  lemma {:induction false} DigitsOfNonDigitPrefix(c: char, s: string)
    requires !IsDigit(c)
    ensures Digits([c] + s) == Digits(s)
  {
    assert ([c] + s)[1..] == s;
  }

  /** Normalising a normalised phone changes nothing. */
  lemma PhoneNormalizationIdempotent(phone: string)
    ensures NormalizedPhone(NormalizedPhone(phone)) == NormalizedPhone(phone)
  {
    var cleaned := Digits(phone);
    var national := if StartsWith(cleaned, "8") then "7" + cleaned[1..] else cleaned;
    assert AllDigits(national);
    var r := NormalizedPhone(phone);
    if StartsWith(national, "7") && |national| == 11 {
      assert r == "+" + national;
      DigitsOfNonDigitPrefix('+', national);
      assert Digits(r) == national;
    } else {
      assert r == national;
      assert Digits(r) == national;
      assert !StartsWith(national, "8");
    }
  }

  /** The three ways of writing a mobile number with a country prefix all
      normalise to "+7" and the ten national digits. */
  lemma TenDigitNormalization(d: string)
    requires |d| == 10 && AllDigits(d)
    ensures NormalizedPhone("8" + d) == "+7" + d
    ensures NormalizedPhone("7" + d) == "+7" + d
    ensures NormalizedPhone("+7" + d) == "+7" + d
    ensures d[0] != '8' ==> NormalizedPhone(d) == d
  {
    assert AllDigits("8" + d) && ("8" + d)[1..] == d;
    assert AllDigits("7" + d);
    DigitsOfNonDigitPrefix('+', "7" + d);
    assert "+7" + d == ['+'] + ("7" + d);
  }

  /** `[\s\-]` */
  const SpaceOrDash := CharClass("-", true, false, false, false)

  /** `[\s\-]?\(?[0-9]{3}\)?[\s\-]?[0-9]{3}[\s\-]?[0-9]{2}[\s\-]?[0-9]{2}` */
  const PhoneBody: seq<Token> :=
    [Opt(SpaceOrDash), Opt(Literal('(')), One(DigitClass), One(DigitClass), One(DigitClass),
     Opt(Literal(')')), Opt(SpaceOrDash), One(DigitClass), One(DigitClass), One(DigitClass),
     Opt(SpaceOrDash), One(DigitClass), One(DigitClass),
     Opt(SpaceOrDash), One(DigitClass), One(DigitClass)]

  /** The phone pattern of validatePhone: `^(\+7|8|7)?` and the body, to `$`. */
  const PhonePattern: seq<Token> := [OptLiterals(PhonePrefixes)] + PhoneBody

  /** validatePhone: the pattern, tested after all white space is removed. */
  predicate ValidPhone(phone: string) {
    Match(PhonePattern, RemoveSpaces(phone))
  }

  /** The body allows only digits and digit-free separators... */
  lemma PhoneBodySeparators()
    ensures DigitsAndSeparators(PhoneBody)
  {
  }

  /** ... and asks for ten digits. */
  lemma PhoneBodySlots()
    ensures DigitSlots(PhoneBody) == 10
  {
  }

  lemma PhoneBodyShape()
    ensures DigitsAndSeparators(PhoneBody) && DigitSlots(PhoneBody) == 10
  {
    PhoneBodySeparators();
    PhoneBodySlots();
  }

  lemma {:induction false} DigitsConcat(a: string, b: string)
    ensures Digits(a + b) == Digits(a) + Digits(b)
  {
    if a == [] {
      assert a + b == b;
    } else {
      assert (a + b)[0] == a[0];
      assert (a + b)[1..] == a[1..] + b;
      DigitsConcat(a[1..], b);
    }
  }

  lemma {:induction false} DigitsOfDigitPrefix(p: string, s: string)
    requires AllDigits(p)
    ensures Digits(p + s) == p + Digits(s)
  {
    DigitsConcat(p, s);
  }

  lemma {:induction false} DigitsIgnoreSpaces(s: string)
    ensures Digits(RemoveSpaces(s)) == Digits(s)
  {
    if s != [] {
      DigitsIgnoreSpaces(s[1..]);
      if IsSpace(s[0]) {
        assert !IsDigit(s[0]);
        DigitsOfNonDigitPrefix(s[0], s[1..]);
        assert s == [s[0]] + s[1..];
      } else {
        assert RemoveSpaces(s) == [s[0]] + RemoveSpaces(s[1..]);
      }
    }
  }

  /** The digits behind a prefix: the prefix's 7 or 8, then the ten of the body. */
  lemma PrefixedBodyDigits(i: nat, rest: string)
    requires i < 3 && |Digits(rest)| == 10
    ensures var d := Digits(PhonePrefixes[i] + rest);
            |d| == 11 && (d[0] == '7' || d[0] == '8')
  {
    if i == 0 {
      assert PhonePrefixes[i] + rest == ['+'] + ("7" + rest);
      DigitsOfNonDigitPrefix('+', "7" + rest);
      DigitsOfDigitPrefix("7", rest);
    } else {
      DigitsOfDigitPrefix(PhonePrefixes[i], rest);
    }
  }

  /** The digits of a string that matches an optional prefix and then a
      ten-digit body of separators. */
  lemma PrefixedPatternDigits(body: seq<Token>, s: string)
    requires DigitsAndSeparators(body) && DigitSlots(body) == 10
    requires Match([OptLiterals(PhonePrefixes)] + body, s)
    ensures var d := Digits(s);
            |d| == 10 || (|d| == 11 && (d[0] == '7' || d[0] == '8'))
  {
    assert ([OptLiterals(PhonePrefixes)] + body)[1..] == body;
    if AltMatch(PhonePrefixes, body, s) {
      AltMatchWitness(PhonePrefixes, body, s);
      var i :| 0 <= i < |PhonePrefixes| && StartsWith(s, PhonePrefixes[i]) && Match(body, s[|PhonePrefixes[i]|..]);
      var rest := s[|PhonePrefixes[i]|..];
      assert s == PhonePrefixes[i] + rest;
      SeparatedDigitsCount(body, rest);
      PrefixedBodyDigits(i, rest);
    } else {
      SeparatedDigitsCount(body, s);
    }
  }

  /** The digits of a string that matches the whole pattern. */
  lemma PatternDigits(s: string)
    requires Match(PhonePattern, s)
    ensures var d := Digits(s);
            |d| == 10 || (|d| == 11 && (d[0] == '7' || d[0] == '8'))
  {
    PhoneBodyShape();
    PrefixedPatternDigits(PhoneBody, s);
  }

  /** A phone that passes validation carries ten digits, or eleven digits
      the first of which is the 7 or 8 of the country prefix. */
  lemma ValidPhoneDigits(phone: string)
    requires ValidPhone(phone)
    ensures var d := Digits(phone);
            |d| == 10 || (|d| == 11 && (d[0] == '7' || d[0] == '8'))
  {
    DigitsIgnoreSpaces(phone);
    PatternDigits(RemoveSpaces(phone));
  }

  /** A phone with fewer than ten digits is always rejected ("123", say),
      and so is a blank one. */
  lemma FewDigitsRejected(phone: string)
    requires |Digits(phone)| < 10
    ensures !ValidPhone(phone)
  {
    if ValidPhone(phone) {
      ValidPhoneDigits(phone);
    }
  }

  lemma BlankPhoneInvalid(phone: string)
    requires Trim(phone) == ""
    ensures !ValidPhone(phone)
  {
    TrimEmptyIff(phone);
    RemoveSpacesOfBlank(phone);
    DigitsIgnoreSpaces(phone);
    FewDigitsRejected(phone);
  }

  const PhonePrefixes := ["+7", "8", "7"]

  lemma TenDigitBodyMatches(d: string)
    requires |d| == 10 && AllDigits(d)
    ensures Match(PhoneBody, d)
  {
    PhoneBodyShape();
    BareDigitsMatch(PhoneBody, d);
  }

  lemma PrefixedPhoneAccepted(i: nat, d: string)
    requires i < 3 && |d| == 10 && AllDigits(d)
    ensures ValidPhone(PhonePrefixes[i] + d)
  {
    var s := PhonePrefixes[i] + d;
    TenDigitBodyMatches(d);
    DigitsKeepNoSpace(s);
    assert s[|PhonePrefixes[i]|..] == d;
    AltMatchIntro(PhonePrefixes, PhoneBody, s, i);
    assert PhonePattern[1..] == PhoneBody;
  }

  /** Ten digits are accepted bare or behind each of the three prefixes. */
  lemma TenDigitPhonesAccepted(d: string)
    requires |d| == 10 && AllDigits(d)
    ensures ValidPhone(d) && ValidPhone("+7" + d) && ValidPhone("8" + d) && ValidPhone("7" + d)
  {
    TenDigitBodyMatches(d);
    DigitsKeepNoSpace(d);
    assert PhonePattern[1..] == PhoneBody;
    PrefixedPhoneAccepted(0, d);
    PrefixedPhoneAccepted(1, d);
    PrefixedPhoneAccepted(2, d);
  }

  lemma DigitsKeepNoSpace(s: string)
    requires forall i :: 0 <= i < |s| ==> IsDigit(s[i]) || s[i] == '+'
    ensures RemoveSpaces(s) == s
  {
  }

  /** Normalising a string of ten digits, or of eleven starting with 7 or 8,
      gives "+7" and ten digits or ten bare digits. */
  lemma NormalizedShape(phone: string)
    requires var d := Digits(phone); |d| == 10 || (|d| == 11 && (d[0] == '7' || d[0] == '8'))
    ensures var r := NormalizedPhone(phone);
            (|r| == 12 && r[..2] == "+7" && AllDigits(r[1..])) || (|r| == 10 && AllDigits(r))
  {
  }

  /** Validation and normalisation agree: a phone that passes validation is
      sent either as "+7" and ten digits or as ten bare digits. */
  lemma ValidPhoneNormalizesToTenDigits(phone: string)
    requires ValidPhone(phone)
    ensures var r := NormalizedPhone(phone);
            (|r| == 12 && r[..2] == "+7" && AllDigits(r[1..])) || (|r| == 10 && AllDigits(r))
  {
    ValidPhoneDigits(phone);
    NormalizedShape(phone);
  }

  // ---------------------------------------------------------------------
  // The delivery draft

  datatype DeliveryDraft = DeliveryDraft(
    shippingAddress: string,
    recipientPhone: string,
    recipientName: string,
    deliveryNotes: string,
    shippingMethod: string)

  const AddressRequired := "Адрес доставки обязателен"
  const AddressTooShort := "Адрес должен содержать минимум 10 символов"
  const NameRequired := "Имя получателя обязательно"
  const NameTooShort := "Имя должно содержать минимум 2 символа"
  const PhoneRequired := "Телефон обязателен"
  const PhoneInvalid := "Введите корректный номер телефона"

  function AddressError(address: string): Option<string> {
    var t := Trim(address);
    if t == "" then Some(AddressRequired) else if |t| < 10 then Some(AddressTooShort) else None
  }

  function NameError(name: string): Option<string> {
    var t := Trim(name);
    if t == "" then Some(NameRequired) else if |t| < 2 then Some(NameTooShort) else None
  }

  function PhoneError(phone: string): Option<string> {
    if Trim(phone) == "" then Some(PhoneRequired)
    else if !ValidPhone(phone) then Some(PhoneInvalid)
    else None
  }

  /** The validationErrors object: one optional message per checked field. */
  datatype DeliveryErrors = DeliveryErrors(
    shippingAddress: Option<string>,
    recipientName: Option<string>,
    recipientPhone: Option<string>)

  const NoErrors := DeliveryErrors(None, None, None)

  /** The errors object validateDeliveryInfo leaves behind. */
  function ErrorsOf(d: DeliveryDraft): DeliveryErrors {
    DeliveryErrors(AddressError(d.shippingAddress), NameError(d.recipientName), PhoneError(d.recipientPhone))
  }

  predicate DraftValid(d: DeliveryDraft) {
    ErrorsOf(d) == NoErrors
  }

  /** What each entry of the errors object means: a field is flagged exactly
      when its trimmed value is too short (the phone: when it fails the
      pattern), with the "required" message for a blank value. */
  lemma DeliveryErrorsMeaning(d: DeliveryDraft)
    ensures var e := ErrorsOf(d);
            && (e.shippingAddress.Some? <==> |Trim(d.shippingAddress)| < 10)
            && (e.shippingAddress.Some? ==>
                  e.shippingAddress.value == (if Trim(d.shippingAddress) == "" then AddressRequired else AddressTooShort))
            && (e.recipientName.Some? <==> |Trim(d.recipientName)| < 2)
            && (e.recipientName.Some? ==>
                  e.recipientName.value == (if Trim(d.recipientName) == "" then NameRequired else NameTooShort))
            && (e.recipientPhone.Some? <==> !ValidPhone(d.recipientPhone))
            && (e.recipientPhone.Some? ==>
                  e.recipientPhone.value == (if Trim(d.recipientPhone) == "" then PhoneRequired else PhoneInvalid))
  {
    if Trim(d.recipientPhone) == "" {
      BlankPhoneInvalid(d.recipientPhone);
    }
  }

  /** The draft is accepted exactly when the address has at least 10 and the
      name at least 2 characters after trimming and the phone matches. */
  lemma DraftValidIff(d: DeliveryDraft)
    ensures DraftValid(d) <==>
              |Trim(d.shippingAddress)| >= 10 && |Trim(d.recipientName)| >= 2 && ValidPhone(d.recipientPhone)
  {
    DeliveryErrorsMeaning(d);
  }

  /** validateDeliveryInfo: fills the errors object field by field and
      reports whether it stayed empty. */
  method ValidateDeliveryInfo(d: DeliveryDraft) returns (isValid: bool, errors: DeliveryErrors)
    ensures errors == ErrorsOf(d)
    ensures isValid <==> errors == NoErrors
  {
    errors := NoErrors;
    isValid := true;

    var address := Trim(d.shippingAddress);
    if address == "" {
      errors := errors.(shippingAddress := Some(AddressRequired));
      isValid := false;
    } else if |address| < 10 {
      errors := errors.(shippingAddress := Some(AddressTooShort));
      isValid := false;
    }

    var name := Trim(d.recipientName);
    if name == "" {
      errors := errors.(recipientName := Some(NameRequired));
      isValid := false;
    } else if |name| < 2 {
      errors := errors.(recipientName := Some(NameTooShort));
      isValid := false;
    }

    if Trim(d.recipientPhone) == "" {
      errors := errors.(recipientPhone := Some(PhoneRequired));
      isValid := false;
    } else if !ValidPhone(d.recipientPhone) {
      errors := errors.(recipientPhone := Some(PhoneInvalid));
      isValid := false;
    }
  }

  /** The draft the page starts with and returns to after an order. */
  function DefaultDraft(userPhone: string, userFullName: string): DeliveryDraft {
    DeliveryDraft("", userPhone, userFullName, "", "STANDARD")
  }

  // ---------------------------------------------------------------------
  // Page state

  /** The request a handler sends, if any. */
  datatype Request =
    | NoRequest
    | RemoveLine(productId: int)                       // DELETE /cart/remove
    | SetLineQuantity(productId: int, quantity: int)   // PUT /cart/update
    | PlaceOrder(delivery: DeliveryDraft)              // POST /orders

  /** The body confirmCheckout posts: the draft with the phone formatted. */
  function OrderRequest(d: DeliveryDraft): Request {
    PlaceOrder(d.(recipientPhone := NormalizedPhone(d.recipientPhone)))
  }

  predicate CartEmpty(cart: Option<seq<CartLine>>) {
    cart.None? || cart.value == []
  }

  /** Effect of removeFromCart on the cart: only a confirmed and successful
      request drops the product's lines. */
  function RemoveEffect(cart: Option<seq<CartLine>>, productId: int, confirmed: bool, ok: bool): Option<seq<CartLine>>
    requires cart.Some?
  {
    if confirmed && ok then Some(WithoutProduct(cart.value, productId)) else cart
  }

  /** The request removeFromCart sends: none unless the user confirmed. */
  function RemoveRequest(productId: int, confirmed: bool): Request {
    if confirmed then RemoveLine(productId) else NoRequest
  }

  class CartPage {
    var cart: Option<seq<CartLine>>
    var draft: DeliveryDraft
    var validationErrors: DeliveryErrors
    var showDeliveryModal: bool
    var checkoutLoading: bool
    const userPhone: string      // user?.phone || ''
    const userFullName: string   // user?.fullName || ''

    /** The page once fetchCart has stored the cart the service returned. */
    constructor (fetched: Option<seq<CartLine>>, userPhone: string, userFullName: string)
      ensures cart == fetched && draft == DefaultDraft(userPhone, userFullName)
      ensures this.userPhone == userPhone && this.userFullName == userFullName
      ensures validationErrors == NoErrors && !showDeliveryModal && !checkoutLoading
    {
      cart := fetched;
      this.userPhone := userPhone;
      this.userFullName := userFullName;
      draft := DefaultDraft(userPhone, userFullName);
      validationErrors := NoErrors;
      showDeliveryModal := false;
      checkoutLoading := false;
    }

    /** removeFromCart; `confirmed` is the answer to the confirm dialog and
        `ok` whether the response was ok with success set. The remove
        buttons exist only for the lines of a loaded cart. */
    method RemoveFromCart(productId: int, confirmed: bool, ok: bool) returns (sent: Request)
      requires cart.Some?
      modifies this
      ensures sent == RemoveRequest(productId, confirmed)
      ensures cart == RemoveEffect(old(cart), productId, confirmed, ok)
      ensures draft == old(draft) && validationErrors == old(validationErrors)
      ensures showDeliveryModal == old(showDeliveryModal) && checkoutLoading == old(checkoutLoading)
    {
      if !confirmed {
        return NoRequest;
      }
      sent := RemoveLine(productId);
      if ok {
        cart := Some(WithoutProduct(cart.value, productId));
      }
    }

    /** updateQuantity: below 1 it is removeFromCart for the same product. */
    method UpdateQuantity(productId: int, quantity: int, confirmed: bool, ok: bool) returns (sent: Request)
      requires cart.Some?
      modifies this
      ensures quantity < 1 ==> sent == RemoveRequest(productId, confirmed)
      ensures quantity < 1 ==> cart == RemoveEffect(old(cart), productId, confirmed, ok)
      ensures quantity >= 1 ==> sent == SetLineQuantity(productId, quantity)
      ensures quantity >= 1 ==>
                cart == if ok then Some(WithQuantity(old(cart).value, productId, quantity)) else old(cart)
      ensures draft == old(draft) && validationErrors == old(validationErrors)
      ensures showDeliveryModal == old(showDeliveryModal) && checkoutLoading == old(checkoutLoading)
    {
      if quantity < 1 {
        sent := RemoveFromCart(productId, confirmed, ok);
        return;
      }
      sent := SetLineQuantity(productId, quantity);
      if ok {
        cart := Some(WithQuantity(cart.value, productId, quantity));
      }
    }

    /** checkout: opens the delivery dialog unless the cart is empty. */
    method Checkout()
      modifies this
      ensures showDeliveryModal == (old(showDeliveryModal) || !CartEmpty(old(cart)))
      ensures cart == old(cart) && draft == old(draft) && validationErrors == old(validationErrors)
      ensures checkoutLoading == old(checkoutLoading)
    {
      if cart.None? || |cart.value| == 0 {
        return;   // alert('Корзина пуста')
      }
      showDeliveryModal := true;
    }

    /** confirmCheckout; `ok` is the outcome of the order request. */
    method ConfirmCheckout(ok: bool) returns (sent: Request)
      modifies this
      ensures validationErrors == ErrorsOf(old(draft))
      ensures !DraftValid(old(draft)) ==>
                sent == NoRequest && cart == old(cart) && draft == old(draft)
                && showDeliveryModal == old(showDeliveryModal) && checkoutLoading == old(checkoutLoading)
      ensures DraftValid(old(draft)) ==>
                sent == OrderRequest(old(draft)) && !showDeliveryModal && !checkoutLoading
      ensures DraftValid(old(draft)) && ok ==> cart == None && draft == DefaultDraft(userPhone, userFullName)
      ensures DraftValid(old(draft)) && !ok ==> cart == old(cart) && draft == old(draft)
    {
      var d := draft;
      var isValid, errors := ValidateDeliveryInfo(d);
      assert isValid == DraftValid(d);
      validationErrors := errors;
      if !isValid {
        return NoRequest;
      }
      checkoutLoading := true;
      showDeliveryModal := false;
      var phone := FormatPhone(d.recipientPhone);
      sent := PlaceOrder(d.(recipientPhone := phone));
      assert sent == OrderRequest(d);
      if ok {
        cart := None;
        draft := DefaultDraft(userPhone, userFullName);
        validationErrors := NoErrors;
      }
      checkoutLoading := false;
    }
  }
}
