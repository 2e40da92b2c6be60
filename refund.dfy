/**
 * The refund operation of the Pay.nl transaction API (`Paynl\Api\Transaction\Refund`):
 * a request builder whose setters store optional fields unchecked and whose
 * getData writes a sparse field map, the classifier of the gateway's
 * normalised response, and the fixed endpoint the request goes to.
 */
module Transaction {
  import opened Wrappers
  import opened Php
  import opened DateFormat
  import opened Decimal

  /** The exceptions the refund operation throws. */
  datatype Error =
    | Required(message: string)  // Error\Required
    | Api(context: Value)        // Error\Api, constructed from the given value

  const TransactionIdRequired: string := "TransactionId is required"

  const RefundEndpoint: string := "transaction/refund"

  /** The keys getData may write. */
  const FieldNames: set<string> :=
    {"transactionId", "amount", "description", "processDate", "vatPercentage", "currency", "products"}

  /** The refund's private fields at one moment. */
  datatype RefundFields = RefundFields(
    transactionId: Value,
    amount: Option<int>,
    description: Value,
    processDate: Option<CalendarDate>,
    vatPercentage: Value,
    currency: Value,
    products: Option<map<Key, Value>>)

  /** A freshly constructed refund: every field null. */
  const Unset: RefundFields := RefundFields(Null, None, Null, None, Null, Null, None)

  /** The PHP value of the `amount` field: null until setAmount stores an int. */
  function AmountValue(amount: Option<int>): Value {
    if amount.Some? then Int(amount.value) else Null
  }

  /** One conditional assignment of getData: `if (present) $data[key] = v;`. */
  datatype Write = Write(present: bool, key: string, v: Value)

  /** `$d[$key] = $v` when the write takes place; `d` unchanged otherwise. */
  function Put(d: map<string, Value>, w: Write): (r: map<string, Value>)
    ensures w.present ==> r == d[w.key := w.v]
    ensures !w.present ==> r == d
  {
    if w.present then d[w.key := w.v] else d
  }

  /** The writes in order, each applied to the map the previous ones left. */
  function Apply(d: map<string, Value>, ws: seq<Write>): map<string, Value>
    decreases |ws|
  {
    if ws == [] then d else Apply(Put(d, ws[0]), ws[1..])
  }

  predicate DistinctKeys(ws: seq<Write>) {
    forall i, j :: 0 <= i < j < |ws| ==> ws[i].key != ws[j].key
  }

  /** Two write lists that would put the same entries, differing only in values never written. */
  predicate SameEffect(ws: seq<Write>, vs: seq<Write>) {
    |ws| == |vs| &&
    forall i :: 0 <= i < |ws| ==>
      ws[i].present == vs[i].present && ws[i].key == vs[i].key &&
      (ws[i].present ==> ws[i].v == vs[i].v)
  }

  /** The processDate entry for a set date. */
  function DateEntry(date: Option<CalendarDate>): Value {
    if date.Some? then Str(FormatDmy(date.value)) else Null
  }

  /** The products entry for a non-null products array. */
  function ProductsEntry(products: Option<map<Key, Value>>): Value {
    if products.Some? then Arr(products.value) else Null
  }

  /** getData's seven conditional writes, in the order the source makes them. */
  function Writes(f: RefundFields): (ws: seq<Write>)
    ensures |ws| == 7 && DistinctKeys(ws)
    ensures forall i :: 0 <= i < |ws| ==> ws[i].key in FieldNames
  {
    [ Write(true, "transactionId", f.transactionId),
      Write(!Empty(AmountValue(f.amount)), "amount", AmountValue(f.amount)),
      Write(!Empty(f.description), "description", f.description),
      Write(f.processDate.Some?, "processDate", DateEntry(f.processDate)),
      Write(!Empty(f.vatPercentage), "vatPercentage", f.vatPercentage),
      Write(!Empty(f.currency), "currency", f.currency),
      Write(f.products.Some?, "products", ProductsEntry(f.products)) ]
  }

  /** The sparse field map alone: what getData writes into an empty array. */
  function Payload(f: RefundFields): map<string, Value> {
    Apply(map[], Writes(f))
  }

  /**
   * What getData does with the fields `f` and the inherited `data` array:
   * throw Error\Required, or make the writes into `data`.
   */
  function Build(f: RefundFields, data: map<string, Value>): (r: Result<map<string, Value>, Error>)
    ensures r.Failure? <==> Empty(f.transactionId)
    ensures r.Failure? ==> r.error == Required(TransactionIdRequired)
  {
    if Empty(f.transactionId) then Failure(Required(TransactionIdRequired))
    else Success(Apply(data, Writes(f)))
  }

  /** `key` holds `v` in `r`. */
  predicate Holds(r: map<string, Value>, key: string, v: Value) {
    key in r && r[key] == v
  }

  /** `key` is in `r` exactly as it is in `d`: present with the same value, or absent. */
  predicate Keeps(d: map<string, Value>, r: map<string, Value>, key: string) {
    (key in r <==> key in d) && (key in d ==> r[key] == d[key])
  }

  /** Applying the writes from position i on: the write at i, then the rest. */
  lemma ApplyStep(d: map<string, Value>, ws: seq<Write>, i: nat)
    requires i < |ws|
    ensures Apply(d, ws[i..]) == Apply(Put(d, ws[i]), ws[i + 1..])
  {
    assert ws[i..][1..] == ws[i + 1..];
  }

  /** getData's seven writes, one after the other. */
  lemma ApplySeven(d: map<string, Value>, ws: seq<Write>)
    requires |ws| == 7
    ensures Apply(d, ws)
         == Put(Put(Put(Put(Put(Put(Put(d, ws[0]), ws[1]), ws[2]), ws[3]), ws[4]), ws[5]), ws[6])
  {
    var d1 := Put(d, ws[0]);
    var d2 := Put(d1, ws[1]);
    var d3 := Put(d2, ws[2]);
    var d4 := Put(d3, ws[3]);
    var d5 := Put(d4, ws[4]);
    var d6 := Put(d5, ws[5]);
    assert ws[0..] == ws;
    ApplyStep(d, ws, 0);
    ApplyStep(d1, ws, 1);
    ApplyStep(d2, ws, 2);
    ApplyStep(d3, ws, 3);
    ApplyStep(d4, ws, 4);
    ApplyStep(d5, ws, 5);
    ApplyStep(d6, ws, 6);
    assert ws[7..] == [];
  }

  /** A key no write takes place on keeps its entry. */
  lemma {:induction false} ApplyUntouched(d: map<string, Value>, ws: seq<Write>, key: string)
    requires forall i :: 0 <= i < |ws| && ws[i].present ==> ws[i].key != key
    ensures Keeps(d, Apply(d, ws), key)
    decreases |ws|
  {
    if ws != [] {
      ApplyUntouched(Put(d, ws[0]), ws[1..], key);
    }
  }

  /** With distinct keys, a write that takes place is what its key holds at the end. */
  lemma {:induction false} ApplyWritten(d: map<string, Value>, ws: seq<Write>, i: nat)
    requires DistinctKeys(ws) && i < |ws| && ws[i].present
    ensures Holds(Apply(d, ws), ws[i].key, ws[i].v)
    decreases |ws|
  {
    if i == 0 {
      ApplyUntouched(Put(d, ws[0]), ws[1..], ws[0].key);
    } else {
      ApplyWritten(Put(d, ws[0]), ws[1..], i - 1);
    }
  }

  /** With distinct keys, a write that does not take place leaves its key alone. */
  lemma ApplySkipped(d: map<string, Value>, ws: seq<Write>, i: nat)
    requires DistinctKeys(ws) && i < |ws| && !ws[i].present
    ensures Keeps(d, Apply(d, ws), ws[i].key)
  {
    ApplyUntouched(d, ws, ws[i].key);
  }

  /** The writes merge their own result over whatever the map held before. */
  lemma {:induction false} ApplyMerges(d: map<string, Value>, e: map<string, Value>, ws: seq<Write>)
    ensures Apply(d + e, ws) == d + Apply(e, ws)
    decreases |ws|
  {
    if ws != [] {
      assert Put(d + e, ws[0]) == d + Put(e, ws[0]);
      ApplyMerges(d, Put(e, ws[0]), ws[1..]);
    }
  }

  /** Write lists with the same effect give the same map. */
  lemma {:induction false} ApplySameEffect(d: map<string, Value>, ws: seq<Write>, vs: seq<Write>)
    requires SameEffect(ws, vs)
    ensures Apply(d, ws) == Apply(d, vs)
    decreases |ws|
  {
    if ws != [] {
      assert Put(d, ws[0]) == Put(d, vs[0]);
      assert SameEffect(ws[1..], vs[1..]);
      ApplySameEffect(Put(d, ws[0]), ws[1..], vs[1..]);
    }
  }

  /** getData writes its payload over `data`: keys are added or overwritten, never removed. */
  lemma BuildMerges(f: RefundFields, d: map<string, Value>)
    requires !Empty(f.transactionId)
    ensures Build(f, d) == Success(d + Payload(f))
    ensures d.Keys <= Build(f, d).value.Keys
  {
    ApplyMerges(d, map[], Writes(f));
    assert d + map[] == d;
  }

  /** On success the transaction id is written as stored. */
  lemma TransactionIdWritten(f: RefundFields, d: map<string, Value>)
    requires !Empty(f.transactionId)
    ensures Holds(Build(f, d).value, "transactionId", f.transactionId)
  {
    ApplyWritten(d, Writes(f), 0);
  }

  /** The amount is written exactly when it was set to a non-zero integer; 0 is never sent. */
  lemma AmountWritten(f: RefundFields, d: map<string, Value>)
    requires !Empty(f.transactionId)
    ensures var r := Build(f, d).value;
            if f.amount.Some? && f.amount.value != 0 then Holds(r, "amount", Int(f.amount.value))
            else Keeps(d, r, "amount")
  {
    if f.amount.Some? && f.amount.value != 0 {
      ApplyWritten(d, Writes(f), 1);
    } else {
      ApplySkipped(d, Writes(f), 1);
    }
  }

  /**
   * description, vatPercentage and currency are each written exactly when they
   * are non-empty; an empty one leaves its key of `data` as it was.
   */
  lemma OptionalFieldsWritten(f: RefundFields, d: map<string, Value>)
    requires !Empty(f.transactionId)
    ensures var r := Build(f, d).value;
            if Empty(f.description) then Keeps(d, r, "description")
            else Holds(r, "description", f.description)
    ensures var r := Build(f, d).value;
            if Empty(f.vatPercentage) then Keeps(d, r, "vatPercentage")
            else Holds(r, "vatPercentage", f.vatPercentage)
    ensures var r := Build(f, d).value;
            if Empty(f.currency) then Keeps(d, r, "currency")
            else Holds(r, "currency", f.currency)
  {
    var ws := Writes(f);
    if Empty(f.description) { ApplySkipped(d, ws, 2); } else { ApplyWritten(d, ws, 2); }
    if Empty(f.vatPercentage) { ApplySkipped(d, ws, 4); } else { ApplyWritten(d, ws, 4); }
    if Empty(f.currency) { ApplySkipped(d, ws, 5); } else { ApplyWritten(d, ws, 5); }
  }

  /** The process date is written exactly when one was set, as `DD-MM-YYYY`. */
  lemma ProcessDateWritten(f: RefundFields, d: map<string, Value>)
    requires !Empty(f.transactionId)
    ensures var r := Build(f, d).value;
            if f.processDate.Some? then
              Holds(r, "processDate", Str(FormatDmy(f.processDate.value))) &&
              ParseDmy(r["processDate"].s) == Some(f.processDate.value)
            else Keeps(d, r, "processDate")
  {
    if f.processDate.Some? {
      var date, ws := f.processDate.value, Writes(f);
      assert ws[3] == Write(true, "processDate", Str(FormatDmy(date)));
      ApplyWritten(d, ws, 3);
      FormatDmyRoundTrip(date);
      assert Build(f, d).value["processDate"].s == FormatDmy(date);
    } else {
      ApplySkipped(d, Writes(f), 3);
    }
  }

  /** The products are written exactly when not null, so an empty array is sent as `[]`. */
  lemma ProductsWritten(f: RefundFields, d: map<string, Value>)
    requires !Empty(f.transactionId)
    ensures var r := Build(f, d).value;
            if f.products.Some? then Holds(r, "products", Arr(f.products.value))
            else Keeps(d, r, "products")
  {
    if f.products.Some? {
      ApplyWritten(d, Writes(f), 6);
    } else {
      ApplySkipped(d, Writes(f), 6);
    }
  }

  /** Keys other than the seven field names are left exactly as they were. */
  lemma OtherKeysKept(f: RefundFields, d: map<string, Value>, key: string)
    requires !Empty(f.transactionId) && key !in FieldNames
    ensures Keeps(d, Build(f, d).value, key)
  {
    ApplyUntouched(d, Writes(f), key);
  }

  /** Running getData again with the same fields leaves `data` as the first run left it. */
  lemma BuildIdempotent(f: RefundFields, d: map<string, Value>)
    requires !Empty(f.transactionId)
    ensures Build(f, Build(f, d).value) == Build(f, d)
  {
    var p := Payload(f);
    BuildMerges(f, d);
    BuildMerges(f, d + p);
    assert (d + p) + p == d + p;
  }

  /** Two values getData cannot tell apart: both empty, or equal. */
  predicate Agree(a: Value, b: Value) {
    (Empty(a) && Empty(b)) || a == b
  }

  /** Two refunds whose fields getData cannot tell apart. */
  predicate SameRequest(f: RefundFields, g: RefundFields) {
    f.transactionId == g.transactionId &&
    Agree(AmountValue(f.amount), AmountValue(g.amount)) &&
    Agree(f.description, g.description) &&
    f.processDate == g.processDate &&
    Agree(f.vatPercentage, g.vatPercentage) &&
    Agree(f.currency, g.currency) &&
    f.products == g.products
  }

  /** getData depends on each optional field only through whether it is empty and, if not, its value. */
  lemma BuildSameRequest(f: RefundFields, g: RefundFields, d: map<string, Value>)
    requires SameRequest(f, g)
    ensures Build(f, d) == Build(g, d)
  {
    var ws, vs := Writes(f), Writes(g);
    forall i | 0 <= i < 7
      ensures ws[i].present == vs[i].present && ws[i].key == vs[i].key
      ensures ws[i].present ==> ws[i].v == vs[i].v
    {
      if i == 0 {} else if i == 1 {} else if i == 2 {} else if i == 3 {}
      else if i == 4 {} else if i == 5 {} else {}
    }
    ApplySameEffect(d, ws, vs);
  }

  /**
   * Setting an optional field to an empty value is the same as never setting
   * it (an amount that casts to 0 included); products are the exception below.
   */
  lemma EmptyValuesAreUnset(f: RefundFields, v: Value, d: map<string, Value>)
    requires Empty(v)
    ensures Build(f.(amount := Some(0)), d) == Build(f.(amount := None), d)
    ensures Build(f.(description := v), d) == Build(f.(description := Null), d)
    ensures Build(f.(vatPercentage := v), d) == Build(f.(vatPercentage := Null), d)
    ensures Build(f.(currency := v), d) == Build(f.(currency := Null), d)
  {
    BuildSameRequest(f.(amount := Some(0)), f.(amount := None), d);
    BuildSameRequest(f.(description := v), f.(description := Null), d);
    BuildSameRequest(f.(vatPercentage := v), f.(vatPercentage := Null), d);
    BuildSameRequest(f.(currency := v), f.(currency := Null), d);
  }

  /** An empty products array is sent as `[]`; null products leave the key as it was. */
  lemma EmptyProductsSent(f: RefundFields, d: map<string, Value>)
    requires !Empty(f.transactionId)
    ensures Holds(Build(f.(products := Some(map[])), d).value, "products", Arr(map[]))
    ensures Keeps(d, Build(f.(products := None), d).value, "products")
  {
    ApplyWritten(d, Writes(f.(products := Some(map[]))), 6);
    ApplySkipped(d, Writes(f.(products := None)), 6);
  }

  /** A refund given only a transaction id sends only the transaction id. */
  lemma DefaultsNotSent(id: Value)
    requires !Empty(id)
    ensures Build(Unset.(transactionId := id), map[]) == Success(map["transactionId" := id])
  {
    ApplySeven(map[], Writes(Unset.(transactionId := id)));
  }

  /** The example refund: 5 euro with a description and a process date, nothing else. */
  function ExampleRefund(date: CalendarDate): RefundFields {
    RefundFields(Str("T1"), Some(500), Str("refund"), Some(date), Null, Null, None)
  }

  /** The example's writes: four take place, the other three are skipped. */
  lemma ExampleWrites(date: CalendarDate)
    ensures Writes(ExampleRefund(date))
         == [Write(true, "transactionId", Str("T1")), Write(true, "amount", Int(500)),
             Write(true, "description", Str("refund")),
             Write(true, "processDate", Str(FormatDmy(date))),
             Write(false, "vatPercentage", Null), Write(false, "currency", Null),
             Write(false, "products", Null)]
  {
    var f := ExampleRefund(date);
    assert !Empty(AmountValue(f.amount)) && !Empty(f.description);
  }

  /** The example sends exactly its four set fields, whatever its date. */
  lemma ExamplePayload(date: CalendarDate)
    ensures Build(ExampleRefund(date), map[])
         == Success(map["transactionId" := Str("T1"), "amount" := Int(500),
                        "description" := Str("refund"), "processDate" := Str(FormatDmy(date))])
  {
    var ws := Writes(ExampleRefund(date));
    ExampleWrites(date);
    ApplySeven(map[], ws);
    var m := map["transactionId" := Str("T1")]["amount" := Int(500)]["description" := Str("refund")];
    assert Put(Put(Put(map[], ws[0]), ws[1]), ws[2]) == m;
  }

  /** A worked request: exactly the four set fields are sent, the date as DD-MM-YYYY. */
  lemma BuildExample(date: CalendarDate)
    requires date == Date(7, 3, 2024)
    ensures Build(ExampleRefund(date), map[])
         == Success(map["transactionId" := Str("T1"), "amount" := Int(500),
                        "description" := Str("refund"), "processDate" := Str("07-03-2024")])
  {
    ExamplePayload(date);
    FormatDmyExample();
  }

  /** The request target of the refund call. */
  datatype Dispatch = Dispatch(endpoint: string, version: int, apiTokenRequired: bool)

  /** `Paynl\Api\Transaction\Refund`. */
  class Refund {
    const apiTokenRequired: bool := true
    const version: int := 15

    var transactionId: Value
    var amount: Option<int>
    var description: Value
    /** The caller's `\DateTime` object itself, not a copy of it. */
    var processDate: DateTime?
    var products: Option<map<Key, Value>>
    var vatPercentage: Value
    var currency: Value
    /** The request fields, inherited from the API base class. */
    var data: map<string, Value>

    function Fields(): RefundFields
      reads this`transactionId, this`amount, this`description, this`processDate
      reads this`vatPercentage, this`currency, this`products, processDate
    {
      RefundFields(transactionId, amount, description,
                   if processDate == null then None else Some(processDate.date),
                   vatPercentage, currency, products)
    }

    constructor ()
      ensures Fields() == Unset && data == map[]
    {
      transactionId, amount, description, processDate := Null, None, Null, null;
      products, vatPercentage, currency := None, Null, Null;
      data := map[];
    }

    method SetTransactionId(id: Value)
      modifies this`transactionId
      ensures Fields() == old(Fields()).(transactionId := id)
    {
      transactionId := id;
    }

    method SetVatPercentage(percentage: Value)
      modifies this`vatPercentage
      ensures Fields() == old(Fields()).(vatPercentage := percentage)
    {
      vatPercentage := percentage;
    }

    method SetCurrency(code: Value)
      modifies this`currency
      ensures Fields() == old(Fields()).(currency := code)
    {
      currency := code;
    }

    /** Stores `(int)$amount`. */
    method SetAmount(cents: Value)
      modifies this`amount
      ensures Fields() == old(Fields()).(amount := Some(IntCast(cents)))
    {
      amount := Some(IntCast(cents));
    }

    method SetDescription(text: Value)
      modifies this`description
      ensures Fields() == old(Fields()).(description := text)
    {
      description := text;
    }

    /** Keeps a reference to `date`: a later change to the object reaches getData. */
    method SetProcessDate(date: DateTime)
      modifies this`processDate
      ensures processDate == date
      ensures Fields() == old(Fields()).(processDate := Some(date.date))
    {
      processDate := date;
    }

    method SetProducts(list: Option<map<Key, Value>>)
      modifies this`products
      ensures Fields() == old(Fields()).(products := list)
    {
      products := list;
    }

    /**
     * Throws Error\Required without touching `data` when the transaction id
     * is empty; otherwise makes the seven conditional writes, in order, on a
     * copy of `data`, stores the copy back in `data` and returns it (the base
     * class's merge is not part of this model).
     */
    method GetData() returns (r: Result<map<string, Value>, Error>)
      modifies this`data
      ensures r == Build(Fields(), old(data))
      ensures data == if r.Success? then r.value else old(data)
    {
      if Empty(transactionId) {
        return Failure(Required(TransactionIdRequired));
      }
      ghost var f := Fields();
      ghost var ws := Writes(f);
      ApplySeven(data, ws);
      var d := data;
      d := d["transactionId" := transactionId];
      if !Empty(AmountValue(amount)) {
        d := d["amount" := AmountValue(amount)];
      }
      if !Empty(description) {
        d := d["description" := description];
      }
      if processDate != null {
        d := d["processDate" := Str(FormatDmy(processDate.date))];
      }
      if !Empty(vatPercentage) {
        d := d["vatPercentage" := vatPercentage];
      }
      if !Empty(currency) {
        d := d["currency" := currency];
      }
      if products.Some? {
        d := d["products" := Arr(products.value)];
      }
      assert Success(d) == Build(f, data);
      data := d;
      return Success(data);
    }

    /** doRequest: always `transaction/refund`; the caller's endpoint and version are ignored. */
    function DoRequest(endpoint: Option<string>, requestedVersion: Option<int>): (call: Dispatch)
      ensures call.endpoint == RefundEndpoint
      ensures call.version == 15 && call.apiTokenRequired
    {
      Dispatch(RefundEndpoint, version, apiTokenRequired)
    }
  }

  /**
   * The process date is read when getData runs, not when it is set: a change
   * made to the `\DateTime` object after setProcessDate is what gets sent.
   */
  method DateChangedAfterSet(refund: Refund, date: DateTime, later: CalendarDate)
    returns (r: Result<map<string, Value>, Error>)
    requires refund.processDate == date && !Empty(refund.transactionId)
    modifies date, refund`data
    ensures r.Success? && Holds(r.value, "processDate", Str(FormatDmy(later)))
  {
    date.SetDate(later);
    ghost var before := refund.data;
    r := refund.GetData();
    ProcessDateWritten(refund.Fields(), before);
  }

  /** `$output['request']['result']` signals success: loosely 1, or exactly the string 'TRUE'. */
  predicate Accepted(result: Value) {
    LooseEqOne(result) || result == Str("TRUE")
  }

  /** The message of a rejected refund: `errorId - errorMessage description`. */
  function RejectionMessage(output: Value): string {
    var request := Index(output, StrKey("request"));
    ToPhpString(Index(request, StrKey("errorId"))) + " - "
    + ToPhpString(Index(request, StrKey("errorMessage"))) + " "
    + (if output.Arr? && IsSet(output.entries, StrKey("description"))
       then ToPhpString(Index(output, StrKey("description"))) else "")
  }

  /**
   * processResult on the normalised gateway response `output`: an error for a
   * non-array, an error carrying the gateway's message for a rejected request
   * envelope, and otherwise the response passed on unchanged.
   */
  function ProcessResult(output: Value): (r: Result<Value, Error>)
    ensures r.Success? <==>
              output.Arr? &&
              (IsSet(output.entries, StrKey("request")) ==>
                 Accepted(Index(output.entries[StrKey("request")], StrKey("result"))))
    ensures r.Success? ==> r.value == output
    ensures !output.Arr? ==> r == Failure(Api(output))
    ensures output.Arr? && r.Failure? ==> r.error == Api(Str(RejectionMessage(output)))
  {
    if !output.Arr? then Failure(Api(output))
    else if IsSet(output.entries, StrKey("request"))
            && !LooseEqOne(Index(Index(output, StrKey("request")), StrKey("result")))
            && Index(Index(output, StrKey("request")), StrKey("result")) != Str("TRUE")
    then Failure(Api(Str(RejectionMessage(output))))
    else Success(output)
  }

  /** A response envelope `['request' => ['result' => result] + rest] + top`. */
  function Envelope(result: Value, rest: map<Key, Value>, top: map<Key, Value>): Value {
    Arr(top[StrKey("request") := Arr(rest[StrKey("result") := result])])
  }

  /** An envelope passes exactly when its result signals success. */
  lemma EnvelopeAccepted(result: Value, rest: map<Key, Value>, top: map<Key, Value>)
    ensures ProcessResult(Envelope(result, rest, top)).Success? <==> Accepted(result)
  {
  }

  /** The encodings of success the gateway may use. */
  lemma AcceptedEncodings(n: int, w1: string, k: nat, m: nat, w2: string)
    requires AllWhitespace(w1) && AllWhitespace(w2)
    ensures Accepted(Int(1)) && Accepted(Bool(true)) && Accepted(Str("TRUE"))
    ensures Accepted(Str(IntToString(n))) <==> n == 1
    ensures Accepted(Str(w1 + Zeros(k) + NatToString(m) + w2)) <==> m == 1
  {
    LooseEqOneRendered(n);
    var x := w1 + Zeros(k) + NatToString(m) + w2;
    LooseEqOnePadded(w1, k, m, w2);
    assert x != "TRUE" by {
      NoLeadingInteger("TRUE");
    }
  }

  /** 'TRUE' is compared identically: other spellings of true are rejections. */
  lemma LowercaseTrueRejected()
    ensures !Accepted(Str("true"))
  {
    NoLeadingInteger("true");
  }

  /** A number followed by other text is not loosely 1 (PHP 8 compares it as a string). */
  lemma TrailingTextRejected()
    ensures !Accepted(Str("1abc"))
  {
    assert !LooseEqOne(Str("1abc")) by {
      DigitsThenText("1", "abc");
      assert "1" + "abc" == "1abc";
    }
    assert "1abc"[0] != "TRUE"[0];
  }

  /** Without a request envelope any array response passes through. */
  lemma NoEnvelopePassesThrough(entries: map<Key, Value>)
    requires !IsSet(entries, StrKey("request"))
    ensures ProcessResult(Arr(entries)) == Success(Arr(entries))
  {
  }

  /** A rejected refund: the error message joins the gateway's error id and message. */
  lemma RejectionExample()
    ensures ProcessResult(Arr(map[StrKey("request") := Arr(map[StrKey("result") := Int(0),
                                                              StrKey("errorId") := Str("42"),
                                                              StrKey("errorMessage") := Str("Not found")])]))
         == Failure(Api(Str("42 - Not found ")))
  {
    var request := Arr(map[StrKey("result") := Int(0), StrKey("errorId") := Str("42"),
                           StrKey("errorMessage") := Str("Not found")]);
    var output := Arr(map[StrKey("request") := request]);
    assert Index(request, StrKey("errorId")) == Str("42");
    assert Index(request, StrKey("errorMessage")) == Str("Not found");
    assert RejectionMessage(output) == "42" + " - " + "Not found" + " " + "";
    assert "42" + " - " + "Not found" + " " + "" == "42 - Not found ";
  }

  /** A top-level description is appended to the message. */
  lemma RejectionWithDescription(request: map<Key, Value>, text: string)
    requires !Accepted(Index(Arr(request), StrKey("result")))
    ensures ProcessResult(Arr(map[StrKey("request") := Arr(request), StrKey("description") := Str(text)]))
         == Failure(Api(Str(ToPhpString(Index(Arr(request), StrKey("errorId"))) + " - "
                            + ToPhpString(Index(Arr(request), StrKey("errorMessage"))) + " " + text)))
  {
  }
}
