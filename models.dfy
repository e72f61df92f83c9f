/**
 * backend/models/item.go: the `Money` amount type with its JSON and SQL
 * conversions, and the shapes of an `Item` (as decoded from JSON, as read
 * from the database, and in memory).
 *
 * A `Money` is a float64 in the source; here it is a `real`, and
 * `strconv.ParseFloat(s, 64)` is the partial function `parse`, passed in
 * as a parameter: `Some(f)` when the text is a number, `None` when
 * ParseFloat reports an error.
 */
module Models {
  import opened Wrappers
  import opened Strings

  /** `strconv.ParseFloat(s, 64)`: the value of `s`, or None on a syntax error. */
  type FloatParser = string -> Option<real>

  /** An opaque instant (`time.Time`). */
  type Timestamp = int

  /** A `uuid.UUID`. */
  type Uuid = seq<byte>

  /** One byte of a `[]byte`. */
  newtype byte = x: int | 0 <= x < 256

  /** The JSON value handed to `Money.UnmarshalJSON`. */
  datatype Json =
    | JsonNull
    | JsonNumber(number: real)   // a literal json.Unmarshal accepts as float64
    | JsonString(text: string)   // a JSON string literal, already unescaped
    | JsonOther                  // true, false, an object or an array

  /** What a driver hands to `Money.Scan` (`src interface{}`). */
  datatype DbValue =
    | DbNil
    | DbFloat(float: real)
    | DbBytes(bytes: seq<byte>)
    | DbString(str: string)
    | DbOther

  datatype MoneyError =
    | NotJsonMoney               // neither a number nor a string: "money: no se pudo parsear json"
    | InvalidFormat(cleaned: string)  // "money: formato invalido '<cleaned>'"
    | NotANumber(text: string)   // the ParseFloat error Scan returns as it is
    | UnexpectedType             // "money: tipo de dato inesperado"

  // ---------------------------------------------------------------------
  // Cleaning a money string (item.go:44-46)
  // ---------------------------------------------------------------------

  /** The two `ReplaceAll` calls: every `$` and then every `,` deleted. */
  function StripSymbols(s: string): (r: string)
    ensures '$' !in r && ',' !in r
    ensures forall x :: x in r <==> x in s && x != '$' && x != ','
  {
    Remove(Remove(s, '$'), ',')
  }

  /** Every character other than `$` and `,` survives the deletions as many times as it occurs. */
  lemma StripSymbolsCounts(s: string)
    ensures multiset(StripSymbols(s)) == multiset(s)['$' := 0][',' := 0]
  {
    RemoveCounts(s, '$');
    RemoveCounts(Remove(s, '$'), ',');
  }

  /** The deletions act piece by piece, so the surviving characters keep their order. */
  lemma StripSymbolsAppend(a: string, b: string)
    ensures StripSymbols(a + b) == StripSymbols(a) + StripSymbols(b)
  {
    RemoveAppend(a, b, '$');
    RemoveAppend(Remove(a, '$'), Remove(b, '$'), ',');
  }

  /** The cleaning chain: `TrimSpace` once, then the two `ReplaceAll` calls. */
  function Clean(s: string): string {
    StripSymbols(TrimSpace(s))
  }

  /** No `$` and no `,` survive cleaning. */
  lemma CleanLeavesNoSymbols(s: string)
    ensures '$' !in Clean(s) && ',' !in Clean(s)
  {
  }

  /** The stripping step is idempotent. */
  lemma {:induction false} StripSymbolsIdempotent(s: string)
    ensures StripSymbols(StripSymbols(s)) == StripSymbols(s)
  {
    var t := StripSymbols(s);
    RemoveAbsent(t, '$');
    RemoveAbsent(t, ',');
  }

  /**
   * Cleaning twice is cleaning once and then trimming: the only thing a
   * second pass can still change is white space that the deletions
   * uncovered at either end.
   */
  lemma {:induction false} CleanTwice(s: string)
    ensures Clean(Clean(s)) == TrimSpace(Clean(s))
  {
    var t := TrimSpace(Clean(s));
    assert '$' !in t && ',' !in t;
    RemoveAbsent(t, '$');
    RemoveAbsent(t, ',');
  }

  /** Cleaning is idempotent exactly on the inputs whose cleaned form has no white space at either end. */
  lemma CleanIdempotentIff(s: string)
    ensures Clean(Clean(s)) == Clean(s) <==> Trimmed(Clean(s))
  {
    CleanTwice(s);
  }

  /**
   * Cleaning is not idempotent in general, because the trim runs before the
   * deletions: "$ 42" cleans to " 42", which cleans again to "42".
   */
  lemma CleanNotIdempotent()
    ensures Clean("$ 42") == " 42"
    ensures Clean(Clean("$ 42")) == "42"
  {
    CleanDollarSpace();
    CleanLeadingSpace();
  }

  lemma CleanDollarSpace()
    ensures Clean("$ 42") == " 42"
  {
    CleanDollarPrefix(" 42");
  }

  lemma CleanLeadingSpace()
    ensures Clean(" 42") == "42"
  {
    var s := " 42";
    var t := "42";
    assert IsSpace(s[0]);
    assert s[1..] == t;
    assert !IsSpace(t[0]) && !IsSpace(t[1]);
    assert TrimLeft(t) == t;
    assert TrimLeft(s) == t;
    assert Trimmed(t);
    assert TrimSpace(s) == t;
    RemoveAbsent(t, '$');
    RemoveAbsent(t, ',');
  }

  /** On an input without white space at either end the trim does nothing. */
  lemma CleanOfTrimmed(s: string)
    requires Trimmed(s)
    ensures Clean(s) == StripSymbols(s)
  {
  }

  // ---------------------------------------------------------------------
  // Money.UnmarshalJSON (item.go:23-59)
  // ---------------------------------------------------------------------

  /** The value `UnmarshalJSON` stores, or the error it returns (leaving the receiver as it was). */
  function DecodeJSON(data: Json, parse: FloatParser): Result<real, MoneyError> {
    match data
    case JsonNull => Success(0.0)
    case JsonNumber(n) => Success(n)
    case JsonOther => Failure(NotJsonMoney)
    case JsonString(s) =>
      var t := Clean(s);
      if t == "" then Success(0.0)
      else match parse(t)
        case Some(f) => Success(f)
        case None => Failure(InvalidFormat(t))
  }

  /** JSON `null` decodes to zero. */
  lemma NullIsZero(parse: FloatParser)
    ensures DecodeJSON(JsonNull, parse) == Success(0.0)
  {
  }

  /** A bare JSON number is taken as it is, whatever ParseFloat does. */
  lemma NumberTakenAsIs(n: real, parse: FloatParser)
    ensures DecodeJSON(JsonNumber(n), parse) == Success(n)
    ensures DecodeJSON(JsonNumber(42.5), parse) == Success(42.5)
  {
  }

  /** A string is rejected exactly when its cleaned form is non-empty and not a number; the error names the cleaned form. */
  lemma StringOutcome(s: string, parse: FloatParser)
    ensures DecodeJSON(JsonString(s), parse).Failure?
        <==> Clean(s) != "" && parse(Clean(s)).None?
    ensures DecodeJSON(JsonString(s), parse).Failure?
        ==> DecodeJSON(JsonString(s), parse).error == InvalidFormat(Clean(s))
    ensures Clean(s) == "" ==> DecodeJSON(JsonString(s), parse) == Success(0.0)
    ensures parse(Clean(s)).Some? && Clean(s) != ""
        ==> DecodeJSON(JsonString(s), parse) == Success(parse(Clean(s)).value)
  {
  }

  /** Strings that clean to nothing decode to zero: "", "$" and " , ". */
  lemma BlankAmountsAreZero(parse: FloatParser)
    ensures DecodeJSON(JsonString(""), parse) == Success(0.0)
    ensures DecodeJSON(JsonString("$"), parse) == Success(0.0)
    ensures DecodeJSON(JsonString(" , "), parse) == Success(0.0)
  {
    CleanDollar();
    CleanSpacedComma();
  }

  lemma CleanDollar()
    ensures Clean("$") == ""
  {
    var s := "$";
    assert Trimmed(s);
    assert s[1..] == [];
    assert Remove(s, '$') == [];
  }

  lemma CleanSpacedComma()
    ensures Clean(" , ") == ""
  {
    var s := " , ";
    assert IsSpace(s[0]) && s[1..] == ", ";
    var t := ", ";
    assert !IsSpace(t[0]);
    assert TrimLeft(s) == t;
    assert IsSpace(t[1]) && t[..1] == ",";
    assert TrimRight(",") == ",";
    assert TrimRight(t) == ",";
    assert TrimSpace(s) == ",";
    RemoveAbsent(",", '$');
    assert ","[1..] == [];
    assert Remove(",", ',') == [];
  }

  /** "$42.00" decodes to the number ParseFloat reads in "42.00". */
  lemma DollarAmount(parse: FloatParser)
    requires parse("42.00") == Some(42.0)
    ensures DecodeJSON(JsonString("$42.00"), parse) == Success(42.0)
  {
    CleanDollarAmount();
  }

  lemma CleanDollarAmount()
    ensures Clean("$42.00") == "42.00"
  {
    var t := "42.00";
    assert !IsSpace(t[|t| - 1]) by {
      assert t[|t| - 1] == '0';
    }
    assert '$' !in t && ',' !in t;
    CleanDollarPrefix(t);
  }

  /** A `$` in front of a symbol-free text that ends in a non-space cleans away, and nothing else changes. */
  lemma CleanDollarPrefix(t: string)
    requires '$' !in t && ',' !in t
    requires t != [] && !IsSpace(t[|t| - 1])
    ensures Clean("$" + t) == t
  {
    var s := "$" + t;
    assert Trimmed(s);
    assert s[1..] == t;
    RemoveAbsent(t, '$');
    assert Remove(s, '$') == t;
    RemoveAbsent(t, ',');
  }

  /**
   * The trim runs before the deletions, so "$ 42" leaves " 42"; ParseFloat
   * rejects a leading space, and the amount is refused.
   */
  lemma DollarSpaceRefused(parse: FloatParser)
    requires parse(" 42").None?
    ensures DecodeJSON(JsonString("$ 42"), parse) == Failure(InvalidFormat(" 42"))
  {
    CleanNotIdempotent();
  }

  // ---------------------------------------------------------------------
  // Money.MarshalJSON and Money.Value (item.go:61-68)
  // ---------------------------------------------------------------------

  /** `MarshalJSON`: a bare JSON number. */
  function MarshalJSON(m: real): Json {
    JsonNumber(m)
  }

  /** `Value`: always a float64, never an error. */
  function Value(m: real): (v: DbValue)
    ensures v == DbFloat(m)
  {
    DbFloat(m)
  }

  /** What `MarshalJSON` writes, `UnmarshalJSON` reads back unchanged. */
  lemma MarshalRoundTrip(m: real, parse: FloatParser)
    ensures DecodeJSON(MarshalJSON(m), parse) == Success(m)
  {
  }

  // ---------------------------------------------------------------------
  // Money.Scan (item.go:71-97)
  // ---------------------------------------------------------------------

  /** `string(v)` for a `[]byte`: one character per byte. */
  function BytesToText(b: seq<byte>): (s: string)
    ensures |s| == |b|
  {
    seq(|b|, i requires 0 <= i < |b| => b[i] as int as char)
  }

  predicate IsAscii(s: string) {
    forall i :: 0 <= i < |s| ==> s[i] < 128 as char
  }

  /** The bytes of an ASCII string; `string(...)` of them gives the string back. */
  function AsciiBytes(s: string): (b: seq<byte>)
    requires IsAscii(s)
    ensures |b| == |s| && BytesToText(b) == s
  {
    var b := seq(|s|, i requires 0 <= i < |s| => s[i] as int as byte);
    assert forall i :: 0 <= i < |s| ==> BytesToText(b)[i] == s[i];
    b
  }

  /** ParseFloat on the text as it is, with no cleaning. */
  function ParseText(s: string, parse: FloatParser): Result<real, MoneyError> {
    match parse(s)
    case Some(f) => Success(f)
    case None => Failure(NotANumber(s))
  }

  /** The value `Scan` stores, or the error it returns (leaving the receiver as it was). */
  function DecodeStorage(src: DbValue, parse: FloatParser): Result<real, MoneyError> {
    match src
    case DbNil => Success(0.0)
    case DbFloat(f) => Success(f)
    case DbBytes(b) => ParseText(BytesToText(b), parse)
    case DbString(s) => ParseText(s, parse)
    case DbOther => Failure(UnexpectedType)
  }

  /** nil is zero, a float64 is taken as it is, any other type is an error. */
  lemma ScanCases(f: real, parse: FloatParser)
    ensures DecodeStorage(DbNil, parse) == Success(0.0)
    ensures DecodeStorage(DbFloat(f), parse) == Success(f)
    ensures DecodeStorage(DbOther, parse) == Failure(UnexpectedType)
  {
  }

  /** Bytes and a string holding the same ASCII text scan to the same result. */
  lemma ScanBytesAsString(s: string, parse: FloatParser)
    requires IsAscii(s)
    ensures DecodeStorage(DbBytes(AsciiBytes(s)), parse) == DecodeStorage(DbString(s), parse)
  {
  }

  /** Scan hands the text to ParseFloat unchanged: no trim, no `$`/`,` deletion. */
  lemma ScanDoesNotClean(s: string, parse: FloatParser)
    ensures DecodeStorage(DbString(s), parse).Success? <==> parse(s).Some?
    ensures parse(s).Some? ==> DecodeStorage(DbString(s), parse) == Success(parse(s).value)
  {
  }

  /**
   * A `$`-prefixed amount is a number for JSON but not for the database:
   * the JSON path strips the sign, `Scan` hands it to ParseFloat as it is.
   */
  lemma ScanRefusesDollar(t: string, parse: FloatParser)
    requires '$' !in t && ',' !in t && t != [] && !IsSpace(t[|t| - 1])
    requires parse(t).Some? && parse("$" + t).None?
    ensures DecodeJSON(JsonString("$" + t), parse) == Success(parse(t).value)
    ensures DecodeStorage(DbString("$" + t), parse) == Failure(NotANumber("$" + t))
  {
    DollarPrefixDecodes(t, parse);
    assert DecodeStorage(DbString("$" + t), parse) == ParseText("$" + t, parse);
  }

  lemma DollarPrefixDecodes(t: string, parse: FloatParser)
    requires '$' !in t && ',' !in t && t != [] && !IsSpace(t[|t| - 1])
    requires parse(t).Some?
    ensures DecodeJSON(JsonString("$" + t), parse) == Success(parse(t).value)
  {
    CleanDollarPrefix(t);
  }

  /** What `Value` writes, `Scan` reads back unchanged. */
  lemma ValueRoundTrip(m: real, parse: FloatParser)
    ensures DecodeStorage(Value(m), parse) == Success(m)
  {
  }

  // ---------------------------------------------------------------------
  // The receiver: `*Money` updated in place
  // ---------------------------------------------------------------------

  /** A `Money` variable that `UnmarshalJSON` and `Scan` write through their pointer receiver. */
  class Money {
    var amount: real

    constructor (m: real)
      ensures amount == m
    {
      amount := m;
    }

    /** Stores the decoded amount, or returns the error and keeps the old amount. */
    method UnmarshalJSON(data: Json, parse: FloatParser) returns (err: Option<MoneyError>)
      modifies this
      ensures match DecodeJSON(data, parse)
              case Success(v) => err == None && amount == v
              case Failure(e) => err == Some(e) && amount == old(amount)
    {
      if data.JsonNull? {
        amount := 0.0;
        return None;
      }
      if data.JsonNumber? {
        amount := data.number;
        return None;
      }
      if !data.JsonString? {
        return Some(NotJsonMoney);
      }
      var s := data.text;
      s := TrimSpace(s);
      s := Remove(s, '$');
      s := Remove(s, ',');
      if s == "" {
        amount := 0.0;
        return None;
      }
      var f := parse(s);
      if f.None? {
        return Some(InvalidFormat(s));
      }
      amount := f.value;
      return None;
    }

    /** Stores the value read from the database, or returns the error and keeps the old amount. */
    method Scan(src: DbValue, parse: FloatParser) returns (err: Option<MoneyError>)
      modifies this
      ensures match DecodeStorage(src, parse)
              case Success(v) => err == None && amount == v
              case Failure(e) => err == Some(e) && amount == old(amount)
    {
      match src
      case DbNil =>
        amount := 0.0;
        err := None;
      case DbFloat(v) =>
        amount := v;
        err := None;
      case DbBytes(v) =>
        var f := parse(BytesToText(v));
        if f.None? {
          return Some(NotANumber(BytesToText(v)));
        }
        amount := f.value;
        err := None;
      case DbString(v) =>
        var f := parse(v);
        if f.None? {
          return Some(NotANumber(v));
        }
        amount := f.value;
        err := None;
      case DbOther =>
        err := Some(UnexpectedType);
    }
  }

  // ---------------------------------------------------------------------
  // Item (item.go:99-111)
  // ---------------------------------------------------------------------

  /** `models.Item` in memory. */
  datatype Item = Item(
    id: Uuid,
    ticker: string,
    targetFrom: real,
    targetTo: real,
    company: string,
    action: string,
    brokerage: string,
    ratingFrom: string,
    ratingTo: string,
    time: Timestamp,
    createdAt: Timestamp)

  /**
   * A JSON object that `encoding/json` can bind to `models.Item` once the
   * two money fields are decoded; the other fields are already decoded.
   */
  datatype WireItem = WireItem(
    id: Uuid,
    ticker: string,
    targetFrom: Json,
    targetTo: Json,
    company: string,
    action: string,
    brokerage: string,
    ratingFrom: string,
    ratingTo: string,
    time: Timestamp,
    createdAt: Timestamp)

  /** Binding a JSON object to an `Item`: a money field that `UnmarshalJSON` refuses fails the whole object. */
  function DecodeItem(w: WireItem, parse: FloatParser): (r: Result<Item, MoneyError>)
    ensures r.Success? <==> DecodeJSON(w.targetFrom, parse).Success? && DecodeJSON(w.targetTo, parse).Success?
  {
    match DecodeJSON(w.targetFrom, parse)
    case Failure(e) => Failure(e)
    case Success(from) =>
      match DecodeJSON(w.targetTo, parse)
      case Failure(e) => Failure(e)
      case Success(to) =>
        Success(Item(w.id, w.ticker, from, to, w.company, w.action, w.brokerage,
                     w.ratingFrom, w.ratingTo, w.time, w.createdAt))
  }

  /**
   * What binding yields: on failure the error of a money field
   * `UnmarshalJSON` refuses, `target_from`'s when both are refused; on success
   * every other field carried over as it is and each amount as
   * `UnmarshalJSON` decodes it.
   */
  lemma DecodeItemFields(w: WireItem, parse: FloatParser)
    ensures var r := DecodeItem(w, parse);
      && (r.Failure? ==>
            r.error == (if DecodeJSON(w.targetFrom, parse).Failure? then DecodeJSON(w.targetFrom, parse).error
                        else DecodeJSON(w.targetTo, parse).error))
      && (r.Success? ==>
            && r.value.id == w.id && r.value.ticker == w.ticker && r.value.company == w.company
            && r.value.action == w.action && r.value.brokerage == w.brokerage
            && r.value.ratingFrom == w.ratingFrom && r.value.ratingTo == w.ratingTo
            && r.value.time == w.time && r.value.createdAt == w.createdAt
            && r.value.targetFrom == DecodeJSON(w.targetFrom, parse).value
            && r.value.targetTo == DecodeJSON(w.targetTo, parse).value)
  {
  }

  /** `json.Marshal` of an `Item`: the money fields become bare numbers. */
  function EncodeItem(it: Item): WireItem {
    WireItem(it.id, it.ticker, MarshalJSON(it.targetFrom), MarshalJSON(it.targetTo), it.company,
             it.action, it.brokerage, it.ratingFrom, it.ratingTo, it.time, it.createdAt)
  }

  /** An item survives a JSON round trip unchanged. */
  lemma ItemJsonRoundTrip(it: Item, parse: FloatParser)
    ensures DecodeItem(EncodeItem(it), parse) == Success(it)
  {
  }
}
