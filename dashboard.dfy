/**
 * The dashboard's aggregation helpers over the cases fetched from
 * `/api/casos`: counting cases by the value at a dotted key path
 * (`contarOcorrencias`), keeping the cases inside the selected date window
 * (`filtrarPorData`) and binning victim ages into decades for the
 * histogram (`atualizarGraficoDistribuicao`). JavaScript's `undefined` is
 * `None`; every other value is a `Json`.
 */
module Dashboard {
  import opened Wrappers
  import opened Json
  import opened Text
  import opened Aggregates

  // ---------------------------------------------------------------------
  // JavaScript readings of values

  /** `if (valor)`: undefined, null, false, 0 and "" are falsy; every array and object is truthy. */
  predicate JsTruthy(v: Option<Json>) {
    match v
    case None => false
    case Some(JNull) => false
    case Some(JBool(b)) => b
    case Some(JNum(n)) => n != 0
    case Some(JStr(s)) => s != ""
    case Some(JArr(_)) => true
    case Some(JObj(_)) => true
  }

  /**
   * `String(v)`, the property key a value becomes: arrays are joined with
   * ",", their null elements printing as empty, and objects print as
   * "[object Object]".
   */
  function JsString(v: Json): string
    decreases v, 1
  {
    match v
    case JNull => "null"
    case JBool(b) => if b then "true" else "false"
    case JNum(n) => IntToString(n)
    case JStr(s) => s
    case JArr(xs) => JoinElements(xs, v)
    case JObj(_) => "[object Object]"
  }

  /** `xs.join(",")` for the elements of the array `whole`. */
  function JoinElements(xs: seq<Json>, ghost whole: Json): string
    requires forall x :: x in xs ==> x < whole
    decreases whole, 0, |xs|
  {
    if xs == [] then ""
    else
      var init := xs[..|xs| - 1];
      assert xs[|xs| - 1] in xs;
      assert forall x :: x in init ==> x < whole by {
        forall x | x in init ensures x < whole {
          assert x in xs;
        }
      }
      var last := if xs[|xs| - 1] == JNull then "" else JsString(xs[|xs| - 1]);
      if |xs| == 1 then last else JoinElements(init, whole) + "," + last
  }

  // ---------------------------------------------------------------------
  // Dotted paths

  function FirstIndexOf(s: string, c: char): (i: nat)
    requires c in s
    ensures i < |s| && s[i] == c && c !in s[..i]
  {
    if s[0] == c then 0 else 1 + FirstIndexOf(s[1..], c)
  }

  /** `s.split(sep)`: the pieces between separators, empty pieces included. */
  function Split(s: string, sep: char): (parts: seq<string>)
    ensures |parts| >= 1
    ensures forall p :: p in parts ==> sep !in p
    decreases |s|
  {
    if sep !in s then [s]
    else
      var i := FirstIndexOf(s, sep);
      [s[..i]] + Split(s[i + 1..], sep)
  }

  /** `parts.join(sep)` */
  function Join(parts: seq<string>, sep: char): string
    requires |parts| >= 1
  {
    if |parts| == 1 then parts[0] else parts[0] + [sep] + Join(parts[1..], sep)
  }

  /** Splitting then joining gives the key back. */
  lemma {:induction false} JoinSplit(s: string, sep: char)
    ensures Join(Split(s, sep), sep) == s
    decreases |s|
  {
    if sep in s {
      var i := FirstIndexOf(s, sep);
      JoinSplit(s[i + 1..], sep);
      assert s == s[..i] + [sep] + s[i + 1..];
    }
  }

  /** Joining pieces free of the separator then splitting gives the pieces back. */
  lemma {:induction false} SplitJoin(parts: seq<string>, sep: char)
    requires |parts| >= 1 && forall p :: p in parts ==> sep !in p
    ensures Split(Join(parts, sep), sep) == parts
  {
    if |parts| > 1 {
      assert parts[0] in parts;
      assert forall p :: p in parts[1..] ==> p in parts;
      SplitJoin(parts[1..], sep);
      SplitCons(parts[0], sep, Join(parts[1..], sep));
      assert parts == [parts[0]] + parts[1..];
    }
  }

  /** A piece free of the separator, then the separator, splits off as the first piece. */
  lemma SplitCons(a: string, sep: char, b: string)
    requires sep !in a
    ensures Split(a + [sep] + b, sep) == [a] + Split(b, sep)
  {
    var s := a + [sep] + b;
    assert s[|a|] == sep;
    assert forall j :: 0 <= j < |a| ==> s[j] == a[j];
    var i := FirstIndexOf(s, sep);
    assert forall j :: 0 <= j < i ==> s[..i][j] == s[j];
    assert i == |a|;
    assert s[..i] == a && s[i + 1..] == b;
  }

  /** `o?.[k]`: an object's own property, undefined for anything else. */
  function Step(o: Option<Json>, k: string): (r: Option<Json>)
    ensures r.Some? <==> o.Some? && o.value.JObj? && k in o.value.fields
  {
    match o
    case Some(JObj(m)) => Get(m, k)
    case _ => None
  }

  /** `path.reduce((o, k) => o?.[k], start)` */
  function Resolve(start: Option<Json>, path: seq<string>): Option<Json>
    decreases |path|
  {
    if path == [] then start else Resolve(Step(start, path[0]), path[1..])
  }

  /** Once a step is undefined the whole path is. */
  lemma {:induction false} ResolveUndefined(path: seq<string>)
    ensures Resolve(None, path) == None
    decreases |path|
  {
    if path != [] {
      ResolveUndefined(path[1..]);
    }
  }

  /** Resolving a path in two parts is resolving the first part and then the second from where it ended. */
  lemma {:induction false} ResolveConcat(start: Option<Json>, p: seq<string>, q: seq<string>)
    ensures Resolve(start, p + q) == Resolve(Resolve(start, p), q)
    decreases |p|
  {
    if p == [] {
      assert p + q == q;
    } else {
      assert (p + q)[1..] == p[1..] + q;
      ResolveConcat(Step(start, p[0]), p[1..], q);
    }
  }

  /** A path with no dot looks up one own property of the case. */
  lemma ResolveOneKey(caso: Doc, chave: string)
    requires '.' !in chave
    ensures Resolve(Some(JObj(caso)), Split(chave, '.')) == Get(caso, chave)
  {
  }

  // ---------------------------------------------------------------------
  // contarOcorrencias

  /** The key a case is counted under, when the value at the path is truthy. */
  function OccurrenceKey(chave: string, caso: Doc): (k: Option<string>)
    ensures k.Some? <==> JsTruthy(Resolve(Some(JObj(caso)), Split(chave, '.')))
  {
    var valor := Resolve(Some(JObj(caso)), Split(chave, '.'));
    if JsTruthy(valor) then Some(JsString(valor.value)) else None
  }

  /** The keys counted, one per case with a truthy value, in case order. */
  function OccurrenceKeys(dados: seq<Doc>, chave: string): (ks: seq<string>)
    ensures |ks| <= |dados|
  {
    FilterMap(dados, caso => OccurrenceKey(chave, caso))
  }

  /** The counts `contarOcorrencias(dados, chave)` returns. */
  function Occurrences(dados: seq<Doc>, chave: string): map<string, nat> {
    Tally(OccurrenceKeys(dados, chave))
  }

  /** The number of cases whose value at the path is truthy. */
  function CountTruthy(dados: seq<Doc>, chave: string): nat {
    if dados == [] then 0
    else CountTruthy(dados[..|dados| - 1], chave)
         + (if JsTruthy(Resolve(Some(JObj(dados[|dados| - 1])), Split(chave, '.'))) then 1 else 0)
  }

  lemma {:induction false} OccurrenceKeysLength(dados: seq<Doc>, chave: string)
    ensures |OccurrenceKeys(dados, chave)| == CountTruthy(dados, chave)
  {
    if dados != [] {
      OccurrenceKeysLength(dados[..|dados| - 1], chave);
    }
  }

  /**
   * The counts have one key per distinct counted value, each counted as
   * often as it occurs, and they sum to the number of cases whose value at
   * the path is truthy.
   */
  lemma OccurrencesMeaning(dados: seq<Doc>, chave: string)
    ensures Occurrences(dados, chave).Keys == set k | k in OccurrenceKeys(dados, chave)
    ensures forall k :: k in Occurrences(dados, chave) ==>
              Occurrences(dados, chave)[k] == multiset(OccurrenceKeys(dados, chave))[k]
    ensures Total(Occurrences(dados, chave)) == CountTruthy(dados, chave)
  {
    TallyCounts(OccurrenceKeys(dados, chave));
    TallyTotal(OccurrenceKeys(dados, chave));
    OccurrenceKeysLength(dados, chave);
  }

  /** Counting by a plain string property counts each case under that string. */
  lemma CountsByStringProperty(dados: seq<Doc>, chave: string, i: nat)
    requires '.' !in chave && i < |dados|
    requires chave in dados[i] && dados[i][chave].JStr? && dados[i][chave].s != ""
    ensures dados[i][chave].s in Occurrences(dados, chave)
  {
    ResolveOneKey(dados[i], chave);
    var f := caso => OccurrenceKey(chave, caso);
    assert f(dados[i]) == Some(dados[i][chave].s);
    FilterMapComplete(dados, f, i);
    TallyCounts(OccurrenceKeys(dados, chave));
  }

  /** The `forEach` loop of `contarOcorrencias`, incrementing `contagem[valor]`. */
  method CountOccurrences(dados: seq<Doc>, chave: string) returns (contagem: map<string, nat>)
    ensures contagem == Occurrences(dados, chave)
  {
    contagem := map[];
    var path := Split(chave, '.');
    for i := 0 to |dados|
      invariant contagem == Occurrences(dados[..i], chave)
    {
      var valor := Resolve(Some(JObj(dados[i])), path);
      if JsTruthy(valor) {
        var key := JsString(valor.value);
        contagem := contagem[key := (if key in contagem then contagem[key] else 0) + 1];
      }
      assert dados[..i + 1][..i] == dados[..i];
    }
    assert dados[..|dados|] == dados;
  }

  // ---------------------------------------------------------------------
  // filtrarPorData

  /** A Date's time value in milliseconds since 1970-01-01T00:00Z, or an invalid date. */
  datatype Time = Invalid | At(ms: int)

  const MsPerDay: int := 86400000

  /** Days from 1970-01-01 to the given day of the proleptic Gregorian calendar. */
  function DaysFromCivil(y: int, m: int, d: int): int
    requires 1 <= m <= 12
  {
    var y' := if m <= 2 then y - 1 else y;
    var era := y' / 400;
    var yoe := y' - era * 400;
    var doy := (153 * (if m > 2 then m - 3 else m + 9) + 2) / 5 + d - 1;
    var doe := yoe * 365 + yoe / 4 - yoe / 100 + doy;
    era * 146097 + doe - 719468
  }

  /** The anchor of the day count: day 0 is 1970-01-01, the epoch of Date's time values. */
  lemma EpochDay()
    ensures DaysFromCivil(1970, 1, 1) == 0
  {
  }

  /** Days from the epoch's reference to March 1 of year y, as `DaysFromCivil` counts them. */
  function MarchFirst(y: int): int {
    var era := y / 400;
    var yoe := y - era * 400;
    era * 146097 + yoe * 365 + yoe / 4 - yoe / 100
  }

  /** The count of `MarchFirst` in closed form: 365 days a year plus the leap days before it. */
  lemma MarchFirstClosed(y: int)
    ensures MarchFirst(y) == 365 * y + y / 4 - y / 100 + y / 400
  {
    var era := y / 400;
    var yoe := y - era * 400;
    assert 0 <= yoe < 400;
    assert y / 4 == 100 * era + yoe / 4;
    assert y / 100 == 4 * era + yoe / 100;
  }

  lemma StepOver(x: int, k: int)
    requires k == 4 || k == 100 || k == 400
    ensures (x + 1) / k == x / k + (if (x + 1) % k == 0 then 1 else 0)
  {
  }

  /** A year from March to March has 366 days exactly when its February is a leap February. */
  lemma MarchToMarch(y: int)
    ensures MarchFirst(y + 1) == MarchFirst(y) + 365 + (if IsLeapYear(y + 1) then 1 else 0)
  {
    MarchFirstClosed(y);
    MarchFirstClosed(y + 1);
    StepOver(y, 4);
    StepOver(y, 100);
    StepOver(y, 400);
    if (y + 1) % 400 == 0 {
      assert (y + 1) % 100 == 0 && (y + 1) % 4 == 0;
    } else if (y + 1) % 100 == 0 {
      assert (y + 1) % 4 == 0;
    }
  }

  /** The day of the March-to-February year on which month m starts, 0 for March. */
  function MonthStart(m: int): (r: int)
    requires 1 <= m <= 12
    ensures r == if m == 3 then 0 else if m == 4 then 31 else if m == 5 then 61 else if m == 6 then 92
                 else if m == 7 then 122 else if m == 8 then 153 else if m == 9 then 184 else if m == 10 then 214
                 else if m == 11 then 245 else if m == 12 then 275 else if m == 1 then 306 else 337
  {
    (153 * (if m > 2 then m - 3 else m + 9) + 2) / 5
  }

  /** `DaysFromCivil` counts from March 1 of the year that holds the day's March-to-February year. */
  lemma CivilFromMarch(y: int, m: int, d: int)
    requires 1 <= m <= 12
    ensures DaysFromCivil(y, m, d) == MarchFirst(if m <= 2 then y - 1 else y) + MonthStart(m) + d - 1 - 719468
  {
  }

  /**
   * Consecutive calendar days are consecutive day numbers: within a month,
   * from the last day of a month to the first of the next, and across New Year.
   */
  lemma NextDay(y: int, m: int, d: int)
    requires 1 <= m <= 12 && 1 <= d <= DaysInMonth(y, m)
    ensures d < DaysInMonth(y, m) ==> DaysFromCivil(y, m, d + 1) == DaysFromCivil(y, m, d) + 1
    ensures d == DaysInMonth(y, m) && m < 12 ==> DaysFromCivil(y, m + 1, 1) == DaysFromCivil(y, m, d) + 1
    ensures d == DaysInMonth(y, m) && m == 12 ==> DaysFromCivil(y + 1, 1, 1) == DaysFromCivil(y, m, d) + 1
  {
    CivilFromMarch(y, m, d);
    if d < DaysInMonth(y, m) {
      CivilFromMarch(y, m, d + 1);
    } else if m < 12 {
      CivilFromMarch(y, m + 1, 1);
      if m == 2 {
        MarchToMarch(y - 1);
      }
    } else {
      CivilFromMarch(y + 1, 1, 1);
    }
  }

  function ClockMs(t: string): int
    requires IsClockTime(t)
  {
    (NumeralValue(t[..2]) * 3600 + NumeralValue(t[3..5]) * 60 + (if |t| == 8 then NumeralValue(t[6..8]) else 0)) * 1000
  }

  /**
   * `new Date(s)` for the ISO forms the model covers: a date alone is
   * midnight UTC, a date with a time and no offset is local time, whose
   * offset from UTC is `tzOffsetMs`; any other string is invalid.
   */
  function ParseDateString(s: string, tzOffsetMs: int): (t: Time)
    ensures IsCalendarDate(s) ==> t == At(DaysFromCivil(YearOf(s), MonthOf(s), DayOf(s)) * MsPerDay)
  {
    if IsCalendarDate(s) then At(DaysFromCivil(YearOf(s), MonthOf(s), DayOf(s)) * MsPerDay)
    else if |s| > 11 && IsCalendarDate(s[..10]) && s[10] == 'T' && IsClockTime(s[11..]) then
      var d := s[..10];
      At(DaysFromCivil(YearOf(d), MonthOf(d), DayOf(d)) * MsPerDay + ClockMs(s[11..]) - tzOffsetMs)
    else Invalid
  }

  /** The largest time value a Date can hold. */
  const MaxTime: int := 8640000000000000

  /**
   * `new Date(v)`: undefined is invalid, null is the epoch, a boolean or a
   * number is a count of milliseconds, anything else is converted to a
   * string and parsed.
   */
  function NewDate(v: Option<Json>, tzOffsetMs: int): (t: Time)
    ensures v.None? ==> t == Invalid
    ensures v.Some? && v.value.JStr? && IsCalendarDate(v.value.s) ==>
              t == At(DaysFromCivil(YearOf(v.value.s), MonthOf(v.value.s), DayOf(v.value.s)) * MsPerDay)
    ensures v.Some? && v.value.JNum? ==> (t.At? <==> -MaxTime <= v.value.n <= MaxTime)
  {
    match v
    case None => Invalid
    case Some(JNull) => At(0)
    case Some(JBool(b)) => At(if b then 1 else 0)
    case Some(JNum(n)) => if -MaxTime <= n <= MaxTime then At(n) else Invalid
    case Some(other) => ParseDateString(JsString(other), tzOffsetMs)
  }

  /** `a >= b` on two Dates: false when either is invalid. */
  predicate AtOrAfter(a: Time, b: Time) {
    a.At? && b.At? && a.ms >= b.ms
  }

  /** Whether a case lies inside the window; an empty bound imposes nothing, and both bounds are inclusive. */
  predicate InWindow(caso: Doc, inicio: string, fim: string, tzOffsetMs: int) {
    var data := NewDate(Get(caso, "data_do_caso"), tzOffsetMs);
    && (inicio == "" || AtOrAfter(data, ParseDateString(inicio, tzOffsetMs)))
    && (fim == "" || AtOrAfter(ParseDateString(fim, tzOffsetMs), data))
  }

  /** `casos.filter(...)` of `filtrarPorData`, with the values of the two date inputs. */
  function FilterByDate(casos: seq<Doc>, inicio: string, fim: string, tzOffsetMs: int): (r: seq<Doc>)
    ensures |r| <= |casos|
    ensures forall c :: c in r <==> c in casos && InWindow(c, inicio, fim, tzOffsetMs)
  {
    if casos == [] then []
    else
      var init := FilterByDate(casos[..|casos| - 1], inicio, fim, tzOffsetMs);
      var c := casos[|casos| - 1];
      assert casos == casos[..|casos| - 1] + [c];
      if InWindow(c, inicio, fim, tzOffsetMs) then init + [c] else init
  }

  /** Filtering keeps order: filtering a concatenation concatenates the filtered parts. */
  lemma {:induction false} FilterByDateAppend(a: seq<Doc>, b: seq<Doc>, inicio: string, fim: string, tzOffsetMs: int)
    ensures FilterByDate(a + b, inicio, fim, tzOffsetMs)
            == FilterByDate(a, inicio, fim, tzOffsetMs) + FilterByDate(b, inicio, fim, tzOffsetMs)
    decreases |b|
  {
    if b == [] {
      assert a + b == a;
    } else {
      var b' := b[..|b| - 1];
      assert (a + b)[..|a + b| - 1] == a + b';
      FilterByDateAppend(a, b', inicio, fim, tzOffsetMs);
    }
  }

  /** With both inputs empty every case is shown. */
  lemma {:induction false} NoWindowKeepsAll(casos: seq<Doc>, tzOffsetMs: int)
    ensures FilterByDate(casos, "", "", tzOffsetMs) == casos
  {
    if casos != [] {
      NoWindowKeepsAll(casos[..|casos| - 1], tzOffsetMs);
      assert casos == casos[..|casos| - 1] + [casos[|casos| - 1]];
    }
  }

  /** A case dated exactly on either bound, with the other bound empty, is kept: the bounds are inclusive. */
  lemma BoundsInclusive(caso: Doc, dia: string, tzOffsetMs: int)
    requires IsCalendarDate(dia) && Get(caso, "data_do_caso") == Some(JStr(dia))
    ensures InWindow(caso, dia, "", tzOffsetMs) && InWindow(caso, "", dia, tzOffsetMs) && InWindow(caso, dia, dia, tzOffsetMs)
  {
  }

  /** A case without a date, or whose date does not parse, is dropped as soon as one bound is set. */
  lemma UndatedDropped(caso: Doc, inicio: string, fim: string, tzOffsetMs: int)
    requires "data_do_caso" !in caso || (caso["data_do_caso"].JStr? && !IsCalendarDate(caso["data_do_caso"].s)
                                          && |caso["data_do_caso"].s| < 10)
    requires inicio != "" || fim != ""
    ensures !InWindow(caso, inicio, fim, tzOffsetMs)
  {
  }

  // ---------------------------------------------------------------------
  // The age histogram

  /** `c.vitima?.idade` kept by `.filter((i) => i > 0)`, for integer ages. */
  function PositiveAge(caso: Doc): (a: Option<nat>)
    ensures a.Some? <==> VictimField(caso, "idade").Some? && VictimField(caso, "idade").value.JNum?
                         && VictimField(caso, "idade").value.n > 0
    ensures a.Some? ==> a.value > 0 && VictimField(caso, "idade") == Some(JNum(a.value))
  {
    match VictimField(caso, "idade")
    case Some(JNum(n)) => if n > 0 then Some(n) else None
    case _ => None
  }

  /** The ages the histogram shows, in case order. */
  function HistogramAges(casos: seq<Doc>): (idades: seq<nat>)
    ensures |idades| <= |casos|
    ensures forall a :: a in idades ==> a > 0
  {
    FilterMapSound(casos, PositiveAge);
    FilterMap(casos, PositiveAge)
  }

  /** `Math.max(...idades, 100)` */
  function MaxWith100(idades: seq<nat>): (m: nat)
    ensures m >= 100
    ensures forall a :: a in idades ==> a <= m
    ensures m == 100 || m in idades
  {
    if idades == [] then 100
    else
      var rest := MaxWith100(idades[..|idades| - 1]);
      var last := idades[|idades| - 1];
      assert idades == idades[..|idades| - 1] + [last];
      if last > rest then last else rest
  }

  /** `Math.ceil(m / 10)` */
  function BinCount(m: nat): (n: nat)
    ensures 10 * n >= m && 10 * (n - 1) < m
  {
    (m + 9) / 10
  }

  /** `Math.floor((idade - 1) / 10)`: the bin of a positive age. */
  function BinOf(idade: nat): (i: nat)
    requires idade > 0
    ensures 10 * i + 1 <= idade <= 10 * (i + 1)
  {
    (idade - 1) / 10
  }

  /** Every age lands in a bin of the array: the index is never out of bounds. */
  lemma BinInRange(idades: seq<nat>, a: nat)
    requires a in idades && a > 0
    ensures BinOf(a) < BinCount(MaxWith100(idades))
  {
  }

  /** The number of ages that fall in bin i. */
  function CountInBin(idades: seq<nat>, i: nat): nat {
    if idades == [] then 0
    else
      var last := idades[|idades| - 1];
      CountInBin(idades[..|idades| - 1], i) + (if last > 0 && BinOf(last) == i then 1 else 0)
  }

  /** The bins the histogram draws. */
  function Histogram(idades: seq<nat>): (bins: seq<nat>)
    ensures |bins| == BinCount(MaxWith100(idades)) && |bins| >= 10
  {
    var n := BinCount(MaxWith100(idades));
    seq(n, i requires 0 <= i < n => CountInBin(idades, i))
  }

  function Sum(xs: seq<nat>): nat {
    if xs == [] then 0 else Sum(xs[..|xs| - 1]) + xs[|xs| - 1]
  }

  /** The counts of the first n bins, for ages all below bin n. */
  lemma {:induction false} BinsSumPrefix(idades: seq<nat>, n: nat)
    requires forall a :: a in idades ==> 0 < a <= 10 * n
    ensures Sum(seq(n, i requires 0 <= i < n => CountInBin(idades, i))) == |idades|
  {
    if idades != [] {
      var init := idades[..|idades| - 1];
      var last := idades[|idades| - 1];
      assert last in idades;
      assert forall a :: a in init ==> a in idades;
      BinsSumPrefix(init, n);
      SumBump(seq(n, i requires 0 <= i < n => CountInBin(init, i)),
              seq(n, i requires 0 <= i < n => CountInBin(idades, i)), BinOf(last));
    } else {
      SumZeros(n);
    }
  }

  lemma {:induction false} SumZeros(n: nat)
    ensures Sum(seq(n, i requires 0 <= i < n => CountInBin([], i))) == 0
  {
    if n > 0 {
      SumZeros(n - 1);
      assert seq(n, i requires 0 <= i < n => CountInBin([], i))[..n - 1]
             == seq(n - 1, i requires 0 <= i < n - 1 => CountInBin([], i));
    }
  }

  /** Adding one to one entry adds one to the sum. */
  lemma {:induction false} SumBump(xs: seq<nat>, ys: seq<nat>, j: nat)
    requires |xs| == |ys| && j < |xs|
    requires ys[j] == xs[j] + 1 && forall i :: 0 <= i < |xs| && i != j ==> ys[i] == xs[i]
    ensures Sum(ys) == Sum(xs) + 1
  {
    var n := |xs| - 1;
    if j == n {
      assert xs[..n] == ys[..n];
    } else {
      SumBump(xs[..n], ys[..n], j);
    }
  }

  /** The bins count every shown age exactly once: they sum to the number of ages. */
  lemma HistogramSum(idades: seq<nat>)
    requires forall a :: a in idades ==> a > 0
    ensures Sum(Histogram(idades)) == |idades|
  {
    BinsSumPrefix(idades, BinCount(MaxWith100(idades)));
  }

  /** `i * 10 + 1 + "-" + (i + 1) * 10`: the label of bin i. */
  function BinLabel(i: nat): string {
    RangeLabel(i * 10 + 1, (i + 1) * 10)
  }

  /** Bin i's label names a range holding every age placed in that bin. */
  lemma BinLabelContains(a: nat, i: nat)
    requires a > 0 && BinOf(a) == i
    ensures var k := |NatToString(i * 10 + 1)|;
            && k < |BinLabel(i)| && BinLabel(i)[k] == '-'
            && AllDigits(BinLabel(i)[..k]) && NumeralValue(BinLabel(i)[..k]) == i * 10 + 1
            && AllDigits(BinLabel(i)[k + 1..]) && NumeralValue(BinLabel(i)[k + 1..]) == (i + 1) * 10
            && i * 10 + 1 <= a <= (i + 1) * 10
  {
    RangeLabelReads(i * 10 + 1, (i + 1) * 10);
  }

  /** `bins.map((_, i) => ...)` */
  function BinLabels(n: nat): (labels: seq<string>)
    ensures |labels| == n
    ensures forall i :: 0 <= i < n ==> labels[i] == BinLabel(i)
  {
    seq(n, i requires 0 <= i < n => BinLabel(i))
  }

  /** The largest length a JavaScript array can have, 2^32 - 1. */
  const MaxArrayLength: nat := 0xFFFF_FFFF

  /**
   * `Array.from({length: n})` throws a RangeError unless n is a valid array
   * length; the histogram's n grows with the largest age.
   */
  lemma BinsFitIff(idades: seq<nat>)
    ensures BinCount(MaxWith100(idades)) <= MaxArrayLength <==> forall a :: a in idades ==> a <= 10 * MaxArrayLength
  {
    var m := MaxWith100(idades);
    if BinCount(m) > MaxArrayLength {
      assert m > 10 * MaxArrayLength;
      assert m in idades;
    }
  }

  /**
   * The binning of `atualizarGraficoDistribuicao`: an array of zeros, one
   * per decade up to the largest age (at least 100), incremented once per
   * shown age. Too many decades for an array is a RangeError.
   */
  method AgeHistogram(casos: seq<Doc>) returns (r: Result<(seq<nat>, seq<string>), Fault>)
    ensures r.Err? <==> BinCount(MaxWith100(HistogramAges(casos))) > MaxArrayLength
    ensures r.Err? ==> r.error == RangeFault
    ensures r.Ok? ==> r.value.0 == Histogram(HistogramAges(casos)) && r.value.1 == BinLabels(|r.value.0|)
  {
    var idades := HistogramAges(casos);
    var n := BinCount(MaxWith100(idades));
    if n > MaxArrayLength {
      return Err(RangeFault);
    }
    var bins := new nat[n](_ => 0);
    for k := 0 to |idades|
      invariant forall i :: 0 <= i < n ==> bins[i] == CountInBin(idades[..k], i)
    {
      var idade := idades[k];
      assert idade in idades;
      var b := (idade - 1) / 10;
      bins[b] := bins[b] + 1;
      assert idades[..k + 1][..k] == idades[..k];
    }
    assert idades[..|idades|] == idades;
    var counts := bins[..];
    r := Ok((counts, BinLabels(n)));
  }
}
