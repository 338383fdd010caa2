/**
  The calculator's input draft and the single edit handler that changes it.

  Form fields hold dynamically typed values: the handler stores the raw text
  when JavaScript's `isNaN` accepts it as not-a-number and the result of
  `parseInt` otherwise. How `isNaN` and `parseInt` judge arbitrary text is abstracted by
  `RawKind`, which each edit carries; `Consistent` fixes the two readings the
  model relies on: the empty text, and a plain run of decimal digits.
 */
module Form {
  import opened Estimator

  /** A field value: free text, or an integer produced by coercion. */
  datatype Value = Text(s: string) | Num(n: int)

  /** The falsy field values: the empty text and zero. */
  predicate Falsy(v: Value) {
    v == Text("") || v == Num(0)
  }

  /** The six named inputs of the form. */
  datatype Field = SchoolName | StudentCount | Score(metric: Metric)

  /**
    How `isNaN` and `parseInt` read an input's raw text: `isNaN` holds; `isNaN`
    fails but `parseInt` yields NaN (the empty text); or `isNaN` fails and
    `parseInt` yields `n`.
   */
  datatype RawKind = NotNumeric | NumericNoInt | NumericInt(n: int)

  predicate IsDigit(c: char) {
    '0' <= c <= '9'
  }

  predicate AllDigits(s: string) {
    forall i :: 0 <= i < |s| ==> IsDigit(s[i])
  }

  function DigitValue(c: char): nat
    requires IsDigit(c)
  {
    c as int - '0' as int
  }

  function DigitChar(d: nat): (c: char)
    requires d < 10
    ensures IsDigit(c) && DigitValue(c) == d
  {
    ('0' as int + d) as char
  }

  /** The value of a run of decimal digits, most significant first. */
  function DecimalValue(s: string): nat
    requires AllDigits(s)
  {
    if |s| == 0 then 0 else 10 * DecimalValue(s[..|s| - 1]) + DigitValue(s[|s| - 1])
  }

  /** The decimal text of a non-negative integer, as a slider renders its value. */
  function Decimal(n: nat): (s: string)
    ensures |s| > 0 && AllDigits(s)
  {
    if n < 10 then [DigitChar(n)] else Decimal(n / 10) + [DigitChar(n % 10)]
  }

  /** Reading back the rendered text of a number yields that number. */
  lemma {:induction false} DecimalRoundTrip(n: nat)
    ensures DecimalValue(Decimal(n)) == n
  {
    var s := Decimal(n);
    if n < 10 {
      assert s[..|s| - 1] == [];
    } else {
      assert s[..|s| - 1] == Decimal(n / 10);
      DecimalRoundTrip(n / 10);
    }
  }

  /** The reading facts the model relies on. */
  predicate Consistent(raw: string, kind: RawKind) {
    && (raw == "" ==> kind == NumericNoInt)
    && (|raw| > 0 && AllDigits(raw) ==> kind == NumericInt(DecimalValue(raw)))
  }

  /** One change event: the input's name, its raw text and how that text reads. */
  datatype Edit = Edit(field: Field, raw: string, kind: RawKind)

  /** A score comes from a range input, whose text always reads as a number. */
  predicate WellFormed(e: Edit) {
    Consistent(e.raw, e.kind) && (e.field.Score? ==> !e.kind.NotNumeric?)
  }

  /**
    Text `isNaN` holds of is kept; anything else becomes its `parseInt`
    integer, or 0 when that is NaN (the only case where the fallback to 0 acts).
   */
  function Coerce(raw: string, kind: RawKind): (v: Value)
    requires Consistent(raw, kind)
    ensures v.Text? <==> kind.NotNumeric?
    ensures v.Text? ==> v.s == raw
    ensures raw == "" ==> v == Num(0)
    ensures |raw| > 0 && AllDigits(raw) ==> v == Num(DecimalValue(raw))
    ensures kind.NumericInt? ==> v == Num(kind.n)
    ensures kind.NumericNoInt? ==> v == Num(0)
  {
    match kind
    case NotNumeric => Text(raw)
    case NumericNoInt => Num(0)
    case NumericInt(n) => Num(n)
  }

  /** The empty input becomes 0, not the empty text. */
  lemma EmptyInputBecomesZero(kind: RawKind)
    requires Consistent("", kind)
    ensures Coerce("", kind) == Num(0)
  {
  }

  /** The form draft: the school name, the student count and the four baseline scores. */
  datatype Draft = Draft(schoolName: Value, studentCount: Value, scores: MetricSet)

  /** The draft the form starts with and that Reset restores. */
  const DefaultDraft := Draft(Text(""), Text(""), MetricSet(45, 38, 52, 61))

  /** What the form shows in one field. */
  function FieldValue(d: Draft, f: Field): Value {
    match f
    case SchoolName => d.schoolName
    case StudentCount => d.studentCount
    case Score(m) => Num(d.scores.Get(m))
  }

  /** The change handler: the named field takes the coerced value, nothing else moves. */
  function ApplyEdit(d: Draft, e: Edit): (r: Draft)
    requires WellFormed(e)
    ensures FieldValue(r, e.field) == Coerce(e.raw, e.kind)
    ensures forall f :: f != e.field ==> FieldValue(r, f) == FieldValue(d, f)
  {
    var v := Coerce(e.raw, e.kind);
    match e.field
    case SchoolName => d.(schoolName := v)
    case StudentCount => d.(studentCount := v)
    case Score(m) => d.(scores := d.scores.Set(m, v.n))
  }

  /** Editing a field with an empty input stores 0 in it. */
  lemma EditEmptyStoresZero(d: Draft, e: Edit)
    requires WellFormed(e) && e.raw == ""
    ensures FieldValue(ApplyEdit(d, e), e.field) == Num(0)
  {
  }

  /** Moving a slider to the text of `n` stores exactly `n` as that score. */
  lemma SliderRoundTrip(d: Draft, m: Metric, n: nat, kind: RawKind)
    requires WellFormed(Edit(Score(m), Decimal(n), kind))
    ensures ApplyEdit(d, Edit(Score(m), Decimal(n), kind)).scores.Get(m) == n
  {
    DecimalRoundTrip(n);
  }
}
