# Pay.nl refund request — a Dafny model

This project models `Paynl\Api\Transaction\Refund` from the Pay.nl PHP SDK. It is the API class that asks the gateway to refund a transaction, in full or in part. It has three parts:

- **setters** store the refund's fields unchecked. `setAmount` is the one exception: it casts its argument with `(int)`;
- **getData** validates the transaction id. It then writes a sparse request map into the inherited `data` array, one key at a time and under PHP's `empty()` / `instanceof` / `is_null` tests. The process date is written as `DD-MM-YYYY`;
- **processResult** classifies the gateway's normalised response. It throws for a non-array, throws with the gateway's own error text for a rejected `request` envelope, and otherwise passes the response on. `doRequest` always targets `transaction/refund`, request version 15, with an API token required.

Modules:

| file | module | contents |
|---|---|---|
| `wrappers.dfy` | `Wrappers` | `Option`, `Result` |
| `decimal.dfy` | `Decimal` | decimal digit strings and zero padding |
| `php.dfy` | `Php` | PHP values and the language rules the class relies on: `empty()`, `isset`, array reads, `(int)` on strings, `== 1`, string conversion |
| `date_format.dfy` | `DateFormat` | calendar dates and `DateTime::format('d-m-Y')`, with a parser it round-trips with |
| `refund.dfy` | `Transaction` | the `Refund` class, getData's specification `Build`, `ProcessResult`, and their lemmas |

The class's own code is imperative: fields assigned in setters and `data` updated in a row of conditionals. It is modelled as a Dafny `class` of the same name. Each `modifies` clause names exactly the field the method assigns. The process date is a `DateTime` object that the refund holds by reference, as PHP does, so `GetData` formats the date the object holds when it runs. `GetData` is proved against the function `Build`, which is the seven conditional writes of the source (`Writes`) applied in order to the old `data`. Everything getData promises is proved as lemmas about `Build`. `processResult` does no more than test its input, so it is a function.

## Model

| member | source | states |
|---|---|---|
| Transaction.Refund.constructor | src/Api/Transaction/Refund.php:19-46 | a new refund has every field null, products included, and an empty `data` |
| Transaction.Refund.SetTransactionId | src/Api/Transaction/Refund.php:51-54 | stores the id as given; no other field changes |
| Transaction.Refund.SetVatPercentage | src/Api/Transaction/Refund.php:59-62 | stores the percentage as given; no other field changes |
| Transaction.Refund.SetCurrency | src/Api/Transaction/Refund.php:67-70 | stores the currency as given; no other field changes |
| Transaction.Refund.SetAmount | src/Api/Transaction/Refund.php:75-78 | stores `(int)$amount`, PHP's integer cast of the argument; no other field changes |
| Transaction.Refund.SetDescription | src/Api/Transaction/Refund.php:83-86 | stores the description as given; no other field changes |
| Transaction.Refund.SetProcessDate | src/Api/Transaction/Refund.php:91-94 | keeps a reference to the caller's `DateTime` object, not a copy: the refund's date is whatever that object holds when it is read; no other field changes |
| Transaction.Refund.SetProducts | src/Api/Transaction/Refund.php:96-99 | stores the products array or null as given; no other field changes |
| Transaction.Refund.GetData | src/Api/Transaction/Refund.php:105-133 | the result is `Build` of the fields and the old `data`; `data` is unchanged on the error and becomes the returned map on success |
| Transaction.Build | src/Api/Transaction/Refund.php:105-109 | fails exactly when the transaction id is PHP-empty (null, false, 0, "", "0", []), and then with Error\Required("TransactionId is required") |
| Transaction.Writes | src/Api/Transaction/Refund.php:111-130 | getData makes seven writes to distinct keys, all among the seven field names |
| Transaction.BuildMerges | src/Api/Transaction/Refund.php:111-130 | on success `data` becomes the old `data` overwritten by the payload; no key is ever removed |
| Transaction.TransactionIdWritten | src/Api/Transaction/Refund.php:111 | on success `data['transactionId']` is the stored transaction id |
| Transaction.AmountWritten | src/Api/Transaction/Refund.php:113-115 | `amount` is written as the stored integer exactly when it was set and is non-zero; otherwise the key is left as it was |
| Transaction.OptionalFieldsWritten | src/Api/Transaction/Refund.php:116-118 | `description`, `vatPercentage` and `currency` are each written as stored iff non-empty; when empty their key is left exactly as it was (source lines 122-127 for the last two) |
| Transaction.ProcessDateWritten | src/Api/Transaction/Refund.php:119-121 | `processDate` is written iff a date was set, as a string that parses back to exactly that date; otherwise the key is left as it was |
| Transaction.ProductsWritten | src/Api/Transaction/Refund.php:128-130 | `products` is written iff non-null, as the given array; otherwise the key is left as it was |
| Transaction.EmptyProductsSent | src/Api/Transaction/Refund.php:38 | when getData succeeds, an explicit empty products array is sent as `[]`, and null products (the default) leave the key as it was |
| Transaction.OtherKeysKept | src/Api/Transaction/Refund.php:111-130 | keys other than the seven field names keep their presence and value |
| Transaction.BuildIdempotent | src/Api/Transaction/Refund.php:111-130 | calling getData again with the same fields (no setter call and no change to the held `DateTime` in between) leaves `data` as the first call left it |
| Transaction.BuildSameRequest | src/Api/Transaction/Refund.php:113-130 | two refunds agreeing on the id, the date and the products, and on each other field up to PHP emptiness, build the same request |
| Transaction.EmptyValuesAreUnset | src/Api/Transaction/Refund.php:113-127 | setting amount to something that casts to 0, or description, vatPercentage or currency to an empty value, builds the same request as never setting it |
| Transaction.DefaultsNotSent | src/Api/Transaction/Refund.php:105-133 | a refund given only a non-empty transaction id builds exactly `['transactionId' => id]` |
| Transaction.BuildExample | src/Api/Transaction/Refund.php:105-133 | a refund of T1 for 500 cents with description "refund" and process date 7 March 2024 sends exactly `{transactionId: "T1", amount: 500, description: "refund", processDate: "07-03-2024"}` |
| Transaction.ExamplePayload | src/Api/Transaction/Refund.php:111-130 | for any date, the worked refund sends exactly its four set fields, with the date formatted |
| Transaction.DateChangedAfterSet | src/Api/Transaction/Refund.php:91-121 | a change made to the `DateTime` object after setProcessDate is what getData sends, because the object is formatted only when getData runs |
| Transaction.Payload | src/Api/Transaction/Refund.php:111-130 | the field map alone: the seven conditional writes applied to an empty array (its body) |
| Transaction.Refund.DoRequest | src/Api/Transaction/Refund.php:161-164 | whatever the arguments, the call goes to `transaction/refund` with version 15 and an API token required (source lines 15-17) |
| Transaction.ProcessResult | src/Api/Transaction/Refund.php:141-157 | succeeds iff the output is an array and, when `request` is set, its `result` is loosely 1 or identically 'TRUE'; success returns the output unchanged; a non-array fails with Error\Api of the output; a rejected envelope fails with the message `errorId - errorMessage description` |
| Transaction.EnvelopeAccepted | src/Api/Transaction/Refund.php:149-154 | a response with a request envelope passes exactly when the envelope's result signals success |
| Transaction.AcceptedEncodings | src/Api/Transaction/Refund.php:151-152 | 1, true and 'TRUE' signal success; a rendered integer signals success iff it is 1; a decimal numeral after any leading zeros, with any whitespace before and after it, signals success iff its value is 1 (so " 01 " passes and " 02 " does not) |
| Transaction.LowercaseTrueRejected | src/Api/Transaction/Refund.php:152 | 'true' in lower case is not success: 'TRUE' is compared identically |
| Transaction.NoEnvelopePassesThrough | src/Api/Transaction/Refund.php:149-156 | an array response without a set `request` passes unchanged |
| Transaction.RejectionExample | src/Api/Transaction/Refund.php:153 | result 0, errorId "42", errorMessage "Not found" and no description fail with the message "42 - Not found " |
| Transaction.RejectionWithDescription | src/Api/Transaction/Refund.php:153 | for every rejected `result`, a top-level `description` is appended after the space |
| Transaction.TrailingTextRejected | src/Api/Transaction/Refund.php:151 | "1abc" is not loosely 1: under PHP 8 a number followed by text compares as a string |
| Transaction.Accepted | src/Api/Transaction/Refund.php:151-152 | the success test of the envelope: `result` is loosely 1 or identically 'TRUE' (its body) |
| Transaction.RejectionMessage | src/Api/Transaction/Refund.php:153 | the message: `errorId`, " - ", `errorMessage`, " ", then the top-level `description` if set or "" (its body) |
| Php.Index | src/Api/Transaction/Refund.php:151 | reading `$v[$k]` yields the entry whenever `v` is an array holding `k`, and a non-null value only from such an entry; otherwise null |
| Php.Empty | src/Api/Transaction/Refund.php:107 | `empty()`: true of null, false, 0, "", "0" and the empty array, and of nothing else (its body; also used at lines 113, 116, 122 and 125) |
| Php.IsSet | src/Api/Transaction/Refund.php:150 | `isset($a[$k])`: the key is present and its value is not null (its body; also used at line 153) |
| Php.IntCast | src/Api/Transaction/Refund.php:77 | `(int)`: null and false give 0, true gives 1, an int is kept, an array gives 0 if empty and 1 otherwise, and a string gives its leading integer after whitespace and a sign, or 0 (its body) |
| Php.LooseEqOne | src/Api/Transaction/Refund.php:151 | `$v == 1` under PHP 8: true for 1, for true, and for an integer numeric string of value 1, which may be surrounded by whitespace (its body) |
| Php.ToPhpString | src/Api/Transaction/Refund.php:153 | the string conversion `.` applies: null and false give "", true gives "1", an int its decimal, a string itself, an array "Array" (its body) |
| Php.IntCastRoundTrip | src/Api/Transaction/Refund.php:77 | `(int)` of the decimal rendering of any integer is that integer, and the rendering is an integer string |
| Php.LooseEqOneRendered | src/Api/Transaction/Refund.php:151 | a decimal rendering of n compares loosely equal to 1 iff n is 1 |
| Php.LooseEqOnePadded | src/Api/Transaction/Refund.php:151 | a decimal numeral after any leading zeros, with any whitespace before and after it, is an integer string, and it compares loosely equal to 1 iff its value is 1 |
| DateFormat.TwoDigits | src/Api/Transaction/Refund.php:120 | `d` and `m` render as exactly two digits with the field's value |
| DateFormat.YearDigits | src/Api/Transaction/Refund.php:120 | `Y` renders the year as a minus sign exactly when the year is below 0, then at least four digits, zero-padded to four and no further, whose value is the year's magnitude, so the field reads back as the year |
| DateFormat.FormatDmy | src/Api/Transaction/Refund.php:120 | `format('d-m-Y')`: day, month and year joined by dashes (its body) |
| DateFormat.FormatDmyRoundTrip | src/Api/Transaction/Refund.php:120 | the `d-m-Y` rendering of every calendar date parses back to that date |
| DateFormat.FormatDmyShape | src/Api/Transaction/Refund.php:120 | for years 0 to 9999 the rendering is exactly ten characters `DD-MM-YYYY` |
| DateFormat.FormatDmyExample | src/Api/Transaction/Refund.php:120 | 7 March 2024 renders as "07-03-2024" |
| Decimal.NatToStringRoundTrip | src/Api/Transaction/Refund.php:120 | the decimal rendering of a natural number reads back as that number |

## Left out

- The HTTP call behind `doRequest` lies in the parent `Transaction` class, which this project does not model, and is network I/O. `DoRequest` models only its target: endpoint, version and token requirement.
- `parent::getData()` lies in the parent class, which this project does not model. `GetData` returns `data` itself as the value passed on.
- `parent::processResult()` lies in the parent class, which this project does not model. The source hands it the raw `$result`, not the normalised `$output`. On success the model returns the normalised output in place of whatever the parent returns for the raw `$result`.
- `Helper::objectToArray` is outside this model. `ProcessResult` takes its output, the normalised response, as its input.
- `\DateTime` is modelled as a mutable object that holds a day, month and year of the proleptic Gregorian calendar. Its only mutator here is `SetDate`, which takes an in-range date. Time of day and time zones are left out, since `d-m-Y` does not show them.
- `Value` has no floats. A float `vatPercentage` such as 21.5 cannot be represented, although the source stores it and sends it as it is. A float argument to `setAmount` cannot be passed either, so its truncation by `(int)` (19.99 becomes 19, line 77) is not modelled. A float `result` of 1.0, which processResult accepts as loosely equal to 1 (line 151), cannot be expressed.
- Php.IntCast: a float-form numeric string is read only up to the end of its integer digits. So `(int)"1e3"` is 1 in the model, where PHP 7.1 and later give 1000. `(int)"1.9"` is 1, as in PHP.
- Php.LooseEqOne: float-form strings such as "1.0" and "1e0" compare equal to 1 in PHP, but the model rejects them.
- The model follows PHP 8's comparison rules. Under PHP 7.4, which the typed property at line 38 also allows, a leading-numeric string such as "1abc" compares equal to 1, so processResult would accept a `result` of "1abc". The model rejects it (TrailingTextRejected).
- Transaction.Refund.GetData makes its seven writes on a local copy of `data` and stores the copy once at the end. Nothing can observe `data` in between, so the effect is the same as the source's key-by-key updates.
- Php.IntCast: the model does not saturate at PHP's 64-bit integer range, because integers are unbounded here.
- Php.Index: reading a key of a string yields null in the model, as for any non-array. With a string `request`, PHP 8 throws a TypeError at `$output['request']['result']` (line 151), which processResult does not catch. PHP 7.4 warns and reads the string's first character instead, so a `request` starting with "1" passes there. The model gives Error\Api for every string `request`.
- The order of PHP array entries is not modelled. `data` is a map from key to value, and equality ignores insertion order.
- `data` is assumed to start empty.
- Transaction.ProcessResult: the Error\Api raised for a non-array carries the raw value. The conversion of that value to an exception message is not modelled, because the `Error\Api` class is not part of this model.
- The `version` that `DoRequest` reports is the class constant. How the parent turns it into the request URL is not part of this model.
