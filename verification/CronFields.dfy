/** The five-field cron expression: what a field's text denotes, the bits the parser
    collects for it, and when a parsed schedule matches an instant. */
module CronFields {
  import opened Results
  import opened Sequences
  import Calendar

  const U32_SPAN := 0x1_0000_0000

  // ------------------------------------------------------------------- text

  function Split(s: string, sep: char): (parts: seq<string>)
    ensures |parts| > 0
  {
    if s == "" then [""]
    else if s[0] == sep then [""] + Split(s[1..], sep)
    else var rest := Split(s[1..], sep); [[s[0]] + rest[0]] + rest[1..]
  }

  /** The text before and after the first `sep`, if there is one. */
  function SplitOnce(s: string, sep: char): Option<(string, string)> {
    if s == "" then None
    else if s[0] == sep then Some(("", s[1..]))
    else match SplitOnce(s[1..], sep)
      case None => None
      case Some(two) => Some(([s[0]] + two.0, two.1))
  }

  /** Unicode White_Space, which is what splitting on whitespace goes by. */
  predicate IsSpace(c: char) {
    var n := c as int;
    9 <= n <= 13 || n == 32 || n == 0x85 || n == 0xA0 || n == 0x1680 || 0x2000 <= n <= 0x200A
    || n == 0x2028 || n == 0x2029 || n == 0x202F || n == 0x205F || n == 0x3000
  }

  /** The words of a text; `word` is the one being read. */
  function Words(s: string, word: string := ""): seq<string> {
    if s == "" then (if word == "" then [] else [word])
    else if IsSpace(s[0]) then (if word == "" then [] else [word]) + Words(s[1..])
    else Words(s[1..], word + [s[0]])
  }

  predicate Digits(s: string) {
    s != "" && forall i :: 0 <= i < |s| ==> '0' <= s[i] <= '9'
  }

  function DecimalValue(s: string): nat
    requires forall i :: 0 <= i < |s| ==> '0' <= s[i] <= '9'
  {
    if s == "" then 0 else 10 * DecimalValue(s[..|s| - 1]) + (s[|s| - 1] as int - '0' as int)
  }

  /** A `u32` as Rust reads one: digits, one `+` allowed in front, nothing past 2^32 - 1. */
  function ReadU32(s: string): Option<nat> {
    var digits := if |s| > 1 && s[0] == '+' then s[1..] else s;
    if Digits(digits) && DecimalValue(digits) < U32_SPAN then Some(DecimalValue(digits)) else None
  }

  // ------------------------------------------------------------------ fields

  /** One comma-separated part of a field, read: `lo-hi/step`, and whether its range was `*`. */
  datatype Part = Part(lo: nat, hi: nat, step: nat, star: bool)

  datatype FieldError =
    | BadStep(part: string)
    | ZeroStep(part: string)
    | BadRange(part: string)
    | NotANumber(range: string)
    | Outside(part: string)
    | MatchesNothing

  function ReadPart(part: string, min: nat, max: nat): (r: Result<Part, FieldError>)
    requires min <= max
    ensures r.Ok? ==> min <= r.value.lo <= r.value.hi <= max && 0 < r.value.step < U32_SPAN
  {
    match SplitOnce(part, '/')
    case None => ReadRange(part, part, 1, min, max)
    case Some(two) =>
      match ReadU32(two.1)
      case None => Err(BadStep(part))
      case Some(step) => if step == 0 then Err(ZeroStep(part)) else ReadRange(part, two.0, step, min, max)
  }

  function ReadRange(part: string, range: string, step: nat, min: nat, max: nat): (r: Result<Part, FieldError>)
    requires min <= max && 0 < step < U32_SPAN
    ensures r.Ok? ==> min <= r.value.lo <= r.value.hi <= max && r.value.step == step
    ensures r.Ok? ==> (r.value.star <==> range == "*")
  {
    if range == "*" then Ok(Part(min, max, step, true))
    else match SplitOnce(range, '-')
      case Some(ends) =>
        (match (ReadU32(ends.0), ReadU32(ends.1))
         case (Some(lo), Some(hi)) => Bounded(part, lo, hi, step, min, max)
         case _ => Err(BadRange(part)))
      case None =>
        match ReadU32(range)
        case None => Err(NotANumber(range))
        case Some(value) => Bounded(part, value, value, step, min, max)
  }

  function Bounded(part: string, lo: nat, hi: nat, step: nat, min: nat, max: nat): (r: Result<Part, FieldError>)
    ensures r.Ok? <==> min <= lo <= hi <= max
    ensures r.Ok? ==> r.value == Part(lo, hi, step, false)
  {
    if lo < min || hi > max || lo > hi then Err(Outside(part)) else Ok(Part(lo, hi, step, false))
  }

  /** What a part is written to mean: every `step`-th value of its range, from the low end. */
  predicate Admits(p: Part, v: nat)
    requires p.step > 0
  {
    p.lo <= v <= p.hi && (v - p.lo) % p.step == 0
  }

  /** What the marking loop visits. `value += step` is 32-bit and wraps, so a step
      within `lo` of 2^32 walks *down* from `lo` instead of leaving the range. */
  predicate Visits(p: Part, v: nat)
    requires 0 < p.step < U32_SPAN
  {
    if p.lo + p.step < U32_SPAN then Admits(p, v)
    else v <= p.lo && (p.lo - v) % (U32_SPAN - p.step) == 0
  }

  /** A part's bits are what the part says exactly when its first step does not wrap. */
  lemma PartMeansWhatItSays(p: Part)
    requires p.lo <= p.hi < 64 && 0 < p.step < U32_SPAN
    ensures (forall v: nat :: Visits(p, v) <==> Admits(p, v)) <==> p.lo + p.step < U32_SPAN
  {
    if p.lo + p.step >= U32_SPAN {
      var k := U32_SPAN - p.step;
      assert Visits(p, p.lo - k) && !Admits(p, p.lo - k);
    }
  }

  lemma MultiplesAreSpaced(a: int, b: int, m: int)
    requires m > 0 && a % m == 0 && b % m == 0
    ensures a < b ==> a + m <= b
    ensures (a + m) % m == 0
  {
    var qa, qb := a / m, b / m;
    assert a == m * qa && b == m * qb;
    if a < b {
      if qa >= qb {
        MultiplesAreOrdered(qb, qa, m);
        assert false;
      }
      MultiplesAreOrdered(qa + 1, qb, m);
    }
    assert a + m == m * (qa + 1);
    MultipleOf(qa + 1, m);
  }

  lemma MultiplesAreOrdered(x: int, y: int, m: int)
    requires m > 0 && x <= y
    ensures m * x <= m * y
  {
  }

  lemma MultipleOf(q: int, m: int)
    requires m > 0
    ensures (m * q) % m == 0
  {
    var d, r := m * q / m, m * q % m;
    assert r == m * (q - d);
    if q - d >= 1 { MultiplesAreOrdered(1, q - d, m); }
    if q - d <= -1 { MultiplesAreOrdered(q - d, -1, m); }
  }

  /** Where the loop stands next: `value += step`, in 32 bits. */
  function Stepped(p: Part, value: nat): nat {
    (value + p.step) % U32_SPAN
  }

  /** Still to be marked when the loop stands at `value`. */
  ghost predicate Ahead(p: Part, value: nat, v: nat)
    requires 0 < p.step < U32_SPAN
  {
    value <= p.hi && Visits(p, v) && if p.lo + p.step < U32_SPAN then v >= value else v <= value
  }

  lemma StepUp(p: Part, value: nat, v: nat)
    requires p.lo <= p.hi < 64 && 0 < p.step && p.lo + p.step < U32_SPAN
    requires value <= p.hi && Visits(p, value)
    ensures Stepped(p, value) == value + p.step
    ensures Stepped(p, value) <= p.hi ==> Visits(p, Stepped(p, value))
    ensures Ahead(p, value, v) <==> v == value || Ahead(p, Stepped(p, value), v)
  {
    var at, to := value - p.lo, if Visits(p, v) then v - p.lo else 0;
    MultiplesAreSpaced(0, at, p.step);
    MultiplesAreSpaced(at, to, p.step);
    assert p.step < 64 || at == 0;
    assert at + p.step == value + p.step - p.lo;
  }

  lemma NextBelow(lo: nat, value: nat, v: nat, k: nat)
    requires 0 < k && v <= lo && value <= lo && (lo - v) % k == 0 && (lo - value) % k == 0
    ensures v < value ==> v <= value - k
  {
    MultiplesAreSpaced(lo - value, lo - v, k);
  }

  lemma StepDown(p: Part, value: nat, v: nat)
    requires p.lo <= p.hi < 64 && 0 < p.step < U32_SPAN && p.lo + p.step >= U32_SPAN
    requires value <= p.hi && Visits(p, value)
    ensures if value + p.step < U32_SPAN then Stepped(p, value) > p.hi
            else Stepped(p, value) < value && Visits(p, Stepped(p, value))
    ensures Ahead(p, value, v) <==> v == value || Ahead(p, Stepped(p, value), v)
  {
    var k := U32_SPAN - p.step;
    if value >= k {
      MultiplesAreSpaced(p.lo - value, p.lo - value, k);
      assert p.lo - value + k == p.lo - (value - k);
      assert Stepped(p, value) == value - k;
    } else {
      assert Stepped(p, value) == value + p.step;
    }
    if Visits(p, v) {
      NextBelow(p.lo, value, v, k);
    }
  }

  lemma StepOn(p: Part, value: nat)
    requires p.lo <= p.hi < 64 && 0 < p.step < U32_SPAN
    requires value <= p.hi && Visits(p, value)
    ensures Stepped(p, value) <= p.hi ==> Visits(p, Stepped(p, value))
    ensures forall v: nat :: Ahead(p, value, v) <==> v == value || Ahead(p, Stepped(p, value), v)
    ensures LoopBound(p, Stepped(p, value)) < LoopBound(p, value)
  {
    forall v: nat ensures Ahead(p, value, v) <==> v == value || Ahead(p, Stepped(p, value), v) {
      if p.lo + p.step < U32_SPAN { StepUp(p, value, v); } else { StepDown(p, value, v); }
    }
    if p.lo + p.step < U32_SPAN { StepUp(p, value, 0); } else { StepDown(p, value, 0); }
  }

  /** Up while the step is honest, down once it wraps, and finished past the range. */
  function LoopBound(p: Part, value: nat): nat {
    if value > p.hi then 0
    else if p.lo + p.step < U32_SPAN then p.hi - value + 1
    else value + 1
  }

  /** The inner loop: mark `lo`, and step until past `hi`. */
  method Mark(bits: set<nat>, p: Part) returns (marked: set<nat>)
    requires p.lo <= p.hi < 64 && 0 < p.step < U32_SPAN
    ensures forall v: nat :: v in marked <==> v in bits || Visits(p, v)
  {
    marked := bits;
    var value: nat := p.lo;
    assert forall v: nat :: Visits(p, v) ==> Ahead(p, p.lo, v);
    while value <= p.hi
      invariant value <= p.hi ==> Visits(p, value)
      invariant forall v: nat :: v in marked || Ahead(p, value, v) <==> v in bits || Visits(p, v)
      decreases LoopBound(p, value)
    {
      StepOn(p, value);
      marked := marked + {value};
      value := (value + p.step) % U32_SPAN;
    }
  }

  // ----------------------------------------------------------- whole fields

  predicate Readable(part: string, min: nat, max: nat)
    requires min <= max
  {
    ReadPart(part, min, max).Ok?
  }

  predicate PartVisits(part: string, min: nat, max: nat, v: nat)
    requires min <= max
  {
    var r := ReadPart(part, min, max);
    r.Ok? && Visits(r.value, v)
  }

  predicate PartAdmits(part: string, min: nat, max: nat, v: nat)
    requires min <= max
  {
    var r := ReadPart(part, min, max);
    r.Ok? && Admits(r.value, v)
  }

  predicate PartIsStar(part: string, min: nat, max: nat)
    requires min <= max
  {
    var r := ReadPart(part, min, max);
    r.Ok? && r.value.star
  }

  /** The bits of a field, and whether cron counts it as restricted. */
  datatype Field = Field(bits: set<nat>, restricted: bool)

  /** Every part is readable, the bits are the ones the parts visit, and no part is a star
      exactly when the field is restricted. */
  ghost predicate PartsRead(parts: seq<string>, min: nat, max: nat, f: Field)
    requires min <= max
  {
    && (forall part :: part in parts ==> Readable(part, min, max))
    && (forall v: nat :: v in f.bits <==> exists part :: part in parts && PartVisits(part, min, max, v))
    && (f.restricted <==> forall part :: part in parts ==> !PartIsStar(part, min, max))
  }

  lemma ReadOneMore(parts: seq<string>, part: string, min: nat, max: nat, f: Field, f': Field)
    requires min <= max && PartsRead(parts, min, max, f) && Readable(part, min, max)
    requires forall v: nat :: v in f'.bits <==> v in f.bits || PartVisits(part, min, max, v)
    requires f'.restricted <==> f.restricted && !PartIsStar(part, min, max)
    ensures PartsRead(parts + [part], min, max, f')
    ensures f'.bits != {}
  {
    var more := parts + [part];
    forall v: nat ensures v in f'.bits <==> exists p :: p in more && PartVisits(p, min, max, v) {
      if PartVisits(part, min, max, v) { assert part in more; }
    }
    assert PartVisits(part, min, max, ReadPart(part, min, max).value.lo);
  }

  ghost predicate AllReadable(text: string, min: nat, max: nat)
    requires min <= max
  {
    forall part :: part in Split(text, ',') ==> Readable(part, min, max)
  }

  ghost predicate FirstUnreadable(parts: seq<string>, i: int, min: nat, max: nat, error: FieldError)
    requires min <= max
  {
    && 0 <= i < |parts| && ReadPart(parts[i], min, max) == Err(error)
    && forall j :: 0 <= j < i ==> Readable(parts[j], min, max)
  }

  lemma StopsAt(spec: string, i: nat, min: nat, max: nat, f: Field, error: FieldError)
    requires min <= max && i < |Split(spec, ',')|
    requires PartsRead(Split(spec, ',')[..i], min, max, f) && ReadPart(Split(spec, ',')[i], min, max) == Err(error)
    ensures FirstUnreadable(Split(spec, ','), i, min, max, error) && !AllReadable(spec, min, max)
  {
    var parts := Split(spec, ',');
    forall j | 0 <= j < i ensures Readable(parts[j], min, max) { assert parts[j] in parts[..i]; }
    assert parts[i] in parts && !Readable(parts[i], min, max);
  }

  /** The first unreadable part decides the error; "matches nothing" is never the answer. */
  method ParseField(spec: string, min: nat, max: nat) returns (r: Result<Field, FieldError>)
    requires min <= max < 64
    ensures r.Ok? ==> PartsRead(Split(spec, ','), min, max, r.value)
    ensures r.Ok? <==> AllReadable(spec, min, max)
    ensures r.Err? ==> exists i :: FirstUnreadable(Split(spec, ','), i, min, max, r.error)
  {
    var parts := Split(spec, ',');
    var field, i := Field({}, true), 0;
    while i < |parts|
      invariant 0 <= i <= |parts|
      invariant PartsRead(parts[..i], min, max, field)
      invariant i > 0 ==> field.bits != {}
    {
      var read := ReadPart(parts[i], min, max);
      if read.Err? {
        StopsAt(spec, i, min, max, field, read.error);
        return Err(read.error);
      }
      field := MarkPart(parts[..i], parts[i], min, max, field);
      TakeOneMore(parts, i);
      i := i + 1;
    }
    TakeAll(parts);
    if field.bits == {} {
      return Err(MatchesNothing);
    }
    return Ok(field);
  }

  /** One turn of the outer loop, for a part that could be read. */
  method MarkPart(seen: seq<string>, part: string, min: nat, max: nat, f: Field) returns (f': Field)
    requires min <= max < 64 && PartsRead(seen, min, max, f) && Readable(part, min, max)
    ensures PartsRead(seen + [part], min, max, f') && f'.bits != {}
  {
    var read := ReadPart(part, min, max).value;
    var bits := Mark(f.bits, read);
    f' := Field(bits, f.restricted && !read.star);
    ReadOneMore(seen, part, min, max, f, f');
  }

  // --------------------------------------------------------------- schedules

  datatype Schedule = Schedule(minute: Field, hour: Field, dom: Field, month: Field, dow: Field)

  datatype CronError = WrongFieldCount(fields: nat) | BadField(name: string, why: FieldError)

  /** `expr` has five words and each reads as its field. */
  ghost predicate Denotes(expr: string, s: Schedule) {
    var w := Words(expr);
    && |w| == 5
    && PartsRead(Split(w[0], ','), 0, 59, s.minute)
    && PartsRead(Split(w[1], ','), 0, 23, s.hour)
    && PartsRead(Split(w[2], ','), 1, 31, s.dom)
    && PartsRead(Split(w[3], ','), 1, 12, s.month)
    && PartsRead(Split(w[4], ','), 0, 6, s.dow)
  }

  /** Accepted exactly when there are five fields and every part of each is readable. */
  method Parse(expr: string) returns (r: Result<Schedule, CronError>)
    ensures r.Ok? ==> Denotes(expr, r.value)
    ensures r.Ok? <==> var w := Words(expr);
              |w| == 5 && AllReadable(w[0], 0, 59) && AllReadable(w[1], 0, 23) && AllReadable(w[2], 1, 31)
              && AllReadable(w[3], 1, 12) && AllReadable(w[4], 0, 6)
    ensures |Words(expr)| != 5 ==> r == Err(WrongFieldCount(|Words(expr)|))
  {
    var fields := Words(expr);
    if |fields| != 5 {
      return Err(WrongFieldCount(|fields|));
    }
    var minute := ParseField(fields[0], 0, 59);
    if minute.Err? { return Err(BadField("minute", minute.error)); }
    var hour := ParseField(fields[1], 0, 23);
    if hour.Err? { return Err(BadField("hour", hour.error)); }
    var dom := ParseField(fields[2], 1, 31);
    if dom.Err? { return Err(BadField("day-of-month", dom.error)); }
    var month := ParseField(fields[3], 1, 12);
    if month.Err? { return Err(BadField("month", month.error)); }
    var dow := ParseField(fields[4], 0, 6);
    if dow.Err? { return Err(BadField("day-of-week", dow.error)); }
    return Ok(Schedule(minute.value, hour.value, dom.value, month.value, dow.value));
  }

  /** A part whose first step stays inside 32 bits. */
  predicate StepFits(part: string, min: nat, max: nat)
    requires min <= max
  {
    var r := ReadPart(part, min, max);
    r.Ok? && r.value.lo + r.value.step < U32_SPAN
  }

  lemma PartInRange(part: string, min: nat, max: nat, v: nat)
    requires min <= max < 64 && PartVisits(part, min, max, v)
    ensures v <= max
    ensures StepFits(part, min, max) ==> min <= v
  {
  }

  lemma PartMeaning(part: string, min: nat, max: nat, v: nat)
    requires min <= max && StepFits(part, min, max)
    ensures PartVisits(part, min, max, v) <==> PartAdmits(part, min, max, v)
  {
  }

  /** When no part has a step that wraps, a field's bits are exactly the values that some
      part is written to admit, all of them in the field's range. */
  lemma FieldMeaning(text: string, min: nat, max: nat, f: Field)
    requires min <= max < 64 && PartsRead(Split(text, ','), min, max, f)
    requires forall part :: part in Split(text, ',') ==> StepFits(part, min, max)
    ensures forall v: nat :: v in f.bits <==> exists part :: part in Split(text, ',') && PartAdmits(part, min, max, v)
    ensures forall v :: v in f.bits ==> min <= v <= max
  {
    var parts := Split(text, ',');
    forall part, v: nat | part in parts
      ensures PartVisits(part, min, max, v) <==> PartAdmits(part, min, max, v)
      ensures PartVisits(part, min, max, v) ==> min <= v <= max
    {
      PartMeaning(part, min, max, v);
      if PartVisits(part, min, max, v) { PartInRange(part, min, max, v); }
    }
  }

  lemma PartVisitsItsLow(part: string, min: nat, max: nat) returns (low: nat)
    requires min <= max < 64 && Readable(part, min, max)
    ensures PartVisits(part, min, max, low) && min <= low <= max
  {
    low := ReadPart(part, min, max).value.lo;
  }

  /** Whatever the steps, a field holds something in its range and nothing past it, so the
      narrowing to 32, 16 and 8 bits that follows loses nothing. */
  lemma FieldIsInhabited(text: string, min: nat, max: nat, f: Field)
    requires min <= max < 64 && PartsRead(Split(text, ','), min, max, f)
    ensures exists v :: v in f.bits && min <= v <= max
    ensures forall v :: v in f.bits ==> v <= max
  {
    var parts := Split(text, ',');
    assert Readable(parts[0], min, max);
    var low := PartVisitsItsLow(parts[0], min, max);
    assert low in f.bits;
    forall v: nat | v in f.bits ensures v <= max {
      var part :| part in parts && PartVisits(part, min, max, v);
      PartInRange(part, min, max, v);
    }
  }

  /** Cron ORs the day fields when both are restricted and uses the restricted one otherwise. */
  predicate DayMatches(s: Schedule, day: int, weekday: int) {
    var byDom, byDow := day in s.dom.bits, weekday in s.dow.bits;
    if s.dom.restricted && s.dow.restricted then byDom || byDow
    else if s.dom.restricted then byDom
    else if s.dow.restricted then byDow
    else true
  }

  predicate Matches(s: Schedule, ts: int) {
    var c := Calendar.CivilOf(ts);
    && c.minute in s.minute.bits
    && c.hour in s.hour.bits
    && c.month in s.month.bits
    && DayMatches(s, c.day, c.weekday)
  }

  /** The rule of crontab: a day listed in either field when both are lists, and otherwise a
      day in both, an asterisk being the whole range. */
  predicate CrontabDay(s: Schedule, day: int, weekday: int) {
    if s.dom.restricted && s.dow.restricted then day in s.dom.bits || weekday in s.dow.bits
    else day in s.dom.bits && weekday in s.dow.bits
  }

  ghost predicate WholeRange(f: Field, min: nat, max: nat) {
    forall v: nat :: min <= v <= max ==> v in f.bits
  }

  /** The code's day rule and crontab's agree on every day. */
  ghost predicate SameDays(s: Schedule) {
    forall day: nat, weekday: nat :: 1 <= day <= 31 && weekday <= 6 ==>
      DayMatches(s, day, weekday) == CrontabDay(s, day, weekday)
  }

  /** The code's day rule is crontab's for every day exactly when an unrestricted day field
      holds its whole range, which a stepped asterisk does not. */
  lemma DayRuleIsCrontabs(expr: string, s: Schedule)
    requires Denotes(expr, s)
    ensures SameDays(s)
      <==> (!s.dom.restricted ==> WholeRange(s.dom, 1, 31)) && (!s.dow.restricted ==> WholeRange(s.dow, 0, 6))
  {
    var w := Words(expr);
    FieldIsInhabited(w[2], 1, 31, s.dom);
    FieldIsInhabited(w[4], 0, 6, s.dow);
    var d :| d in s.dom.bits && 1 <= d <= 31;
    var k :| k in s.dow.bits && 0 <= k <= 6;
    DayRulesCompared(s, d, k);
  }

  lemma DayRulesCompared(s: Schedule, d: nat, k: nat)
    requires d in s.dom.bits && 1 <= d <= 31 && k in s.dow.bits && k <= 6
    ensures SameDays(s)
      <==> (!s.dom.restricted ==> WholeRange(s.dom, 1, 31)) && (!s.dow.restricted ==> WholeRange(s.dow, 0, 6))
  {
    if !s.dom.restricted && !WholeRange(s.dom, 1, 31) {
      var missing: nat :| 1 <= missing <= 31 && missing !in s.dom.bits;
      assert DayMatches(s, missing, k) != CrontabDay(s, missing, k);
    }
    if !s.dow.restricted && !WholeRange(s.dow, 0, 6) {
      var missing: nat :| missing <= 6 && missing !in s.dow.bits;
      assert DayMatches(s, d, missing) != CrontabDay(s, d, missing);
    }
  }

  /** A field that has a plain asterisk among its parts holds its whole range. */
  lemma PlainAsteriskIsWhole(text: string, min: nat, max: nat, f: Field)
    requires min <= max < 64 && PartsRead(Split(text, ','), min, max, f) && "*" in Split(text, ',')
    ensures !f.restricted && WholeRange(f, min, max)
  {
    assert SplitOnce("*", '/') == None;
    assert PartIsStar("*", min, max);
    forall v: nat | min <= v <= max ensures v in f.bits { assert PartVisits("*", min, max, v); }
  }

  /** A schedule fires for the minute, never for the second: two instants of one minute agree,
      and what they agree on is the calendar's date at that minute. */
  lemma MatchesIsByTheMinute(s: Schedule, ts: int, other: int)
    requires ts / 60 == other / 60
    ensures Matches(s, ts) == Matches(s, other)
    ensures var d := Calendar.WalkedTo(ts / 86_400);
            Matches(s, ts) <==> && ts % 86_400 / 60 % 60 in s.minute.bits && ts % 86_400 / 3600 in s.hour.bits
                                && d.month in s.month.bits && DayMatches(s, d.day, d.weekday)
  {
    Calendar.CivilIsTheCalendar(ts);
    Calendar.CivilIsTheCalendar(other);
    SameMinute(ts, other);
    assert Calendar.DateOf(Calendar.CivilOf(ts)) == Calendar.WalkedTo(ts / 86_400);
  }

  lemma SameMinute(ts: int, other: int)
    requires ts / 60 == other / 60
    ensures ts / 86_400 == other / 86_400
    ensures Calendar.CivilOf(ts).minute == Calendar.CivilOf(other).minute == ts % 86_400 / 60 % 60
    ensures Calendar.CivilOf(ts).hour == Calendar.CivilOf(other).hour == ts % 86_400 / 3600
  {
    MinuteOfDay(ts);
    MinuteOfDay(other);
    ClockReads(ts % 86_400);
    ClockReads(other % 86_400);
  }

  lemma MinuteOfDay(ts: int)
    ensures ts / 86_400 == ts / 60 / 1440
    ensures ts % 86_400 / 60 == ts / 60 % 1440
  {
    var m := ts / 60;
    assert ts == 86_400 * (m / 1440) + 60 * (m % 1440) + ts % 60;
  }

  lemma ClockReads(secs: int)
    requires 0 <= secs < 86_400
    ensures secs % 3600 / 60 == secs / 60 % 60
    ensures secs / 3600 == secs / 60 / 60
  {
  }
}
