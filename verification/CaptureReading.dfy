/**
 * What the fixture parser told: every line, cell and field of a proposal in terms of the source text
 * itself, completely and in order.
 */
module CaptureReading {
  import opened Prelude
  import opened Decimals
  import opened CaptureText
  import opened CaptureParser
  import opened CaptureProofs

  // ----- cutting -----

  function Joined(parts: seq<string>, c: char): string
    requires parts != []
  {
    if |parts| == 1 then parts[0] else parts[0] + [c] + Joined(parts[1..], c)
  }

  /** The parts of a text, none of them holding the separator, are all of it. */
  lemma {:induction false} SplitWhole(s: string, c: char)
    ensures Joined(Split(s, c), c) == s && forall part :: part in Split(s, c) ==> c !in part
    decreases |s|
  {
    var k := IndexOf(s, c);
    if k == |s| {
      assert forall i :: 0 <= i < |s| ==> s[i] != c;
    } else {
      var rest := Split(s[k + 1..], c);
      SplitWhole(s[k + 1..], c);
      var parts := Split(s, c);
      assert parts == [s[..k]] + rest && parts[1..] == rest;
      assert s == s[..k] + [c] + s[k + 1..];
      forall part | part in parts
        ensures c !in part
      {
        assert part == s[..k] || part in rest;
      }
    }
  }

  /** The text without the white space around it, and where it starts. */
  ghost predicate Trimmed(blank: Blank, s: string, t: string, k: nat) {
    && At(s, t, k) && (forall i :: 0 <= i < k ==> blank(s[i])) && (forall i :: k + |t| <= i < |s| ==> blank(s[i]))
    && (t != "" ==> !blank(t[0]) && !blank(t[|t| - 1]))
  }

  lemma {:induction false} TrimEndExactly(blank: Blank, s: string)
    ensures var t := TrimEnd(blank, s);
            t <= s && (forall i :: |t| <= i < |s| ==> blank(s[i])) && (t != "" ==> !blank(t[|t| - 1]))
  {
    if s != "" && blank(s[|s| - 1]) {
      TrimEndExactly(blank, s[..|s| - 1]);
      assert forall i :: 0 <= i < |s| - 1 ==> s[..|s| - 1][i] == s[i];
    }
  }

  lemma TrimExactly(blank: Blank, s: string)
    ensures Trimmed(blank, s, Trim(blank, s), Leading(blank, s))
  {
    TrimStartLength(blank, s);
    TrimAt(blank, s);
    var k, rest := Leading(blank, s), TrimStart(blank, s);
    TrimEndExactly(blank, rest);
    assert rest == s[k..];
    forall i | k + |Trim(blank, s)| <= i < |s|
      ensures blank(s[i])
    {
      assert s[i] == rest[i - k];
    }
  }

  lemma TrimmedUnique(blank: Blank, s: string, t: string, k: nat, u: string, m: nat)
    requires Trimmed(blank, s, t, k) && Trimmed(blank, s, u, m)
    ensures t == u && (t != "" ==> k == m)
  {
    if t != "" {
      assert s[k] == t[0] && s[k + |t| - 1] == t[|t| - 1];
    }
    if u != "" {
      assert s[m] == u[0] && s[m + |u| - 1] == u[|u| - 1];
    }
  }

  /** The lines of the text. */
  ghost predicate LinesRead(text: string, lines: seq<SourceLine>) {
    exists parts :: parts != [] && Joined(parts, '\n') == text && (forall part :: part in parts ==> '\n' !in part)
                    && |lines| == |parts| && forall i :: 0 <= i < |lines| ==> lines[i] == SourceLine(parts[i], Start(parts, i))
  }

  lemma LinesAre(text: string)
    ensures LinesRead(text, Lines(text))
  {
    SplitWhole(text, '\n');
  }

  ghost predicate CellRead(blank: Blank, start: nat, parts: seq<string>, i: nat, c: Cell)
    requires i < |parts|
  {
    exists k: nat :: Trimmed(blank, parts[i], c.value, k) && c.start == start + 5 + Start(parts, i) + k
  }

  /** The trimmed cells of an item line, with their places in the text. */
  ghost predicate CellsRead(blank: Blank, line: SourceLine, cells: seq<Cell>) {
    exists parts :: parts != [] && Joined(parts, '|') == Drop(line.raw, 5) && (forall part :: part in parts ==> '|' !in part)
                    && |cells| == |parts| && forall i :: 0 <= i < |cells| ==> CellRead(blank, line.start, parts, i, cells[i])
  }

  lemma CellsAre(blank: Blank, line: SourceLine)
    ensures CellsRead(blank, line, Cells(blank, line.raw, line.start))
  {
    var parts, cells := Split(Drop(line.raw, 5), '|'), Cells(blank, line.raw, line.start);
    SplitWhole(Drop(line.raw, 5), '|');
    forall i | 0 <= i < |cells|
      ensures CellRead(blank, line.start, parts, i, cells[i])
    {
      TrimExactly(blank, parts[i]);
    }
  }

  // ----- choosing -----

  /** Where in the list the picked elements stand: in order, and wherever one qualifies. */
  ghost predicate Places<T(!new)>(all: seq<T>, picked: seq<T>, p: T -> bool, at: seq<nat>) {
    && |at| == |picked| && (forall i :: 0 <= i < |at| ==> at[i] < |all| && picked[i] == all[at[i]] && p(picked[i]))
    && (forall i, j :: 0 <= i < j < |at| ==> at[i] < at[j])
    && (forall n: nat :: n < |all| && p(all[n]) ==> exists i :: 0 <= i < |at| && at[i] == n)
  }

  /** The elements that qualify, all of them and in order. */
  ghost predicate Picked<T(!new)>(all: seq<T>, picked: seq<T>, p: T -> bool) {
    exists at: seq<nat> :: Places(all, picked, p, at)
  }

  lemma PlacesKept<T(!new)>(all: seq<T>, picked: seq<T>, p: T -> bool, at: seq<nat>, last: T)
    requires Places(all, picked, p, at) && !p(last)
    ensures Places(all + [last], picked, p, at)
  {
    assert forall n :: 0 <= n < |all| ==> (all + [last])[n] == all[n];
  }

  lemma PlacesAdded<T(!new)>(all: seq<T>, picked: seq<T>, p: T -> bool, at: seq<nat>, last: T)
    requires Places(all, picked, p, at) && p(last)
    ensures Places(all + [last], picked + [last], p, at + [|all|])
  {
    var more, chosen, places := all + [last], picked + [last], at + [|all|];
    assert forall n :: 0 <= n < |all| ==> more[n] == all[n];
    forall n: nat | n < |more| && p(more[n])
      ensures exists i :: 0 <= i < |places| && places[i] == n
    {
      if n < |all| {
        assert p(all[n]);
        var i :| 0 <= i < |at| && at[i] == n;
        assert places[i] == n;
      } else {
        assert places[|at|] == n;
      }
    }
  }

  lemma {:induction false} FilterEnd<T(!new)>(front: seq<T>, last: T, p: T -> bool)
    ensures Filter(front + [last], p) == if p(last) then Filter(front, p) + [last] else Filter(front, p)
  {
    FilterAppend(front, [last], p);
    assert [last][1..] == [];
  }

  lemma PlacesEnd<T(!new)>(all: seq<T>, front: seq<T>, last: T, p: T -> bool, picked: seq<T>, chosen: seq<T>, at: seq<nat>) returns (more: seq<nat>)
    requires Places(front, picked, p, at) && all == front + [last] && chosen == if p(last) then picked + [last] else picked
    ensures Places(all, chosen, p, more)
  {
    if p(last) {
      more := at + [|front|];
      PlacesAdded(front, picked, p, at, last);
    } else {
      more := at;
      PlacesKept(front, picked, p, at, last);
    }
  }

  lemma {:induction false} ChosenPlaces<T(!new)>(all: seq<T>, p: T -> bool, chosen: seq<T>) returns (at: seq<nat>)
    requires chosen == Filter(all, p)
    ensures Places(all, chosen, p, at)
    decreases |all|
  {
    if all == [] {
      at := [];
    } else {
      var front, last := all[..|all| - 1], all[|all| - 1];
      assert all == front + [last];
      FilterEnd(front, last, p);
      var before := ChosenPlaces(front, p, Filter(front, p));
      at := PlacesEnd(all, front, last, p, Filter(front, p), chosen, before);
    }
  }

  lemma FilterPlaces<T(!new)>(all: seq<T>, p: T -> bool) returns (at: seq<nat>)
    ensures Places(all, Filter(all, p), p, at)
  {
    at := ChosenPlaces(all, p, Filter(all, p));
  }

  lemma {:induction false} FilterPicks<T(!new)>(all: seq<T>, p: T -> bool)
    ensures Picked(all, Filter(all, p), p)
  {
    var at := FilterPlaces(all, p);
  }

  /** The one attribute that qualifies. */
  ghost predicate Only(cells: seq<Cell>, j: nat, p: Cell -> bool) {
    1 <= j < |cells| && p(cells[j]) && forall k :: 1 <= k < |cells| && k != j ==> !p(cells[k])
  }

  ghost predicate NoneStated(cells: seq<Cell>, p: Cell -> bool) {
    forall k :: 1 <= k < |cells| ==> !p(cells[k])
  }

  lemma Increasing(at: seq<nat>)
    requires forall i, j :: 0 <= i < j < |at| ==> at[i] < at[j]
    ensures |at| > 1 ==> at[0] != at[1]
  {
  }

  lemma OnlyOne(cells: seq<Cell>, p: Cell -> bool, j: nat)
    requires Only(cells, j, p)
    ensures Filter(cells[1..], p) == [cells[j]]
  {
    var rest := cells[1..];
    var at := FilterPlaces(rest, p);
    assert rest[j - 1] == cells[j];
    var i :| 0 <= i < |at| && at[i] == j - 1;
    forall m | 0 <= m < |at|
      ensures at[m] == j - 1
    {
      assert p(rest[at[m]]) && rest[at[m]] == cells[at[m] + 1];
    }
    Increasing(at);
  }

  lemma Attributes(cells: seq<Cell>, p: Cell -> bool)
    requires cells != []
    ensures var chosen := Filter(cells[1..], p);
            (NoneStated(cells, p) <==> chosen == []) && (|chosen| == 1 ==> exists j: nat :: Only(cells, j, p))
  {
    var rest := cells[1..];
    var chosen := Filter(rest, p);
    var at := FilterPlaces(rest, p);
    assert forall k :: 1 <= k < |cells| ==> cells[k] == rest[k - 1];
    if chosen != [] {
      assert p(cells[at[0] + 1]);
    }
    forall k | 1 <= k < |cells| && p(cells[k])
      ensures exists i :: 0 <= i < |at| && at[i] == k - 1
    {
      assert p(rest[k - 1]);
    }
    if |chosen| == 1 {
      assert Only(cells, at[0] + 1, p);
    }
  }

  // ----- fields -----

  /** Some digit is not a zero. */
  predicate Positive(s: string) {
    exists i :: 0 <= i < |s| && '1' <= s[i] <= '9'
  }

  predicate QuantityOf(s: string, whole: string, fraction: string) {
    && s == (if fraction == "" then whole else whole + "." + fraction)
    && Canonical(whole) && |whole| <= 9 && AllDigits(fraction) && |fraction| <= 6 && Positive(whole + fraction)
  }

  /** At most nine digits without superfluous zeros, and at most six decimals, of a positive number. */
  ghost predicate QuantityText(s: string) {
    exists whole, fraction :: QuantityOf(s, whole, fraction)
  }

  lemma {:induction false} PositiveExactly(s: string)
    requires AllDigits(s)
    ensures DigitsValue(s) > 0 <==> Positive(s)
  {
    if s != "" {
      var n := |s| - 1;
      PositiveExactly(s[..n]);
      assert s[n] in s;
      if Positive(s[..n]) {
        var i :| 0 <= i < n && '1' <= s[..n][i] <= '9';
        assert '1' <= s[i] <= '9';
      }
      if Positive(s) {
        var i :| 0 <= i < |s| && '1' <= s[i] <= '9';
        assert i < n ==> s[..n][i] == s[i];
      }
    }
  }

  lemma {:induction false} IndexIs(s: string, c: char, k: nat)
    requires k <= |s| && (forall i :: 0 <= i < k ==> s[i] != c) && (k < |s| ==> s[k] == c)
    ensures IndexOf(s, c) == k
  {
  }

  lemma {:induction false} PointAt(s: string, whole: string, fraction: string)
    requires s == (if fraction == "" then whole else whole + "." + fraction) && AllDigits(whole)
    ensures IndexOf(s, '.') == |whole| && s[..|whole|] == whole && Drop(s, |whole| + 1) == fraction
  {
    forall i | 0 <= i < |whole|
      ensures s[i] != '.'
    {
      assert s[i] == whole[i] && whole[i] in whole;
    }
    IndexIs(s, '.', |whole|);
  }

  lemma QuantityValid(s: string, whole: string, fraction: string)
    requires QuantityOf(s, whole, fraction)
    ensures ValidQuantity(s)
  {
    PointAt(s, whole, fraction);
    assert AllDigits(whole + fraction);
    PositiveExactly(whole + fraction);
  }

  lemma QuantityExactly(s: string)
    ensures ValidQuantity(s) <==> QuantityText(s)
  {
    if ValidQuantity(s) {
      var k := IndexOf(s, '.');
      var whole, fraction := s[..k], Drop(s, k + 1);
      assert AllDigits(whole + fraction);
      PositiveExactly(whole + fraction);
      assert s == if fraction == "" then whole else whole + "." + fraction;
      assert QuantityOf(s, whole, fraction);
    }
    if whole, fraction :| QuantityOf(s, whole, fraction) {
      QuantityValid(s, whole, fraction);
    }
  }

  /** What follows the prefix in the cell, trimmed, is the field when it is valid, cited where it stands; otherwise it is left open. */
  ghost predicate StatedRead(blank: Blank, sourceId: string, c: Cell, n: nat, valid: string -> bool, f: Field<Option<string>>, note: string) {
    forall t, k: nat :: Trimmed(blank, Drop(c.value, n), t, k) ==>
      if valid(t) then f == Field(Some(t), Extracted(Span(sourceId, c.start + n + k, c.start + n + k + |t|)))
      else f == Field(None, Defaulted(note))
  }

  function Stating(prefix: string): Cell -> bool {
    (c: Cell) => |prefix| <= |c.value| && c.value[..|prefix|] == prefix
  }

  /** A field stated by no cell has its default, by one cell its content, and by several none. */
  ghost predicate FieldRead(blank: Blank, sourceId: string, cells: seq<Cell>, prefix: string, valid: string -> bool,
                            default_: Field<Option<string>>, f: Field<Option<string>>, note: string) {
    if NoneStated(cells, Stating(prefix)) then f == default_
    else if exists j: nat :: Only(cells, j, Stating(prefix)) then
      forall j: nat :: Only(cells, j, Stating(prefix)) ==> StatedRead(blank, sourceId, cells[j], |prefix|, valid, f, note)
    else f == Field(None, Defaulted(note))
  }

  lemma StatingAgrees(prefix: string)
    ensures forall c :: Stating(prefix)(c) == HasPrefix(prefix)(c)
  {
  }

  function Quantities(): string -> bool {
    (s: string) => ValidQuantity(s)
  }

  function Units(classes: Classes): string -> bool {
    (s: string) => ValidUnit(classes, s)
  }

  lemma ExplicitRead(blank: Blank, sourceId: string, c: Cell, prefix: string, valid: string -> bool, f: Field<Option<string>>, note: string)
    requires !valid("")
    requires var stated := Explicit(blank, [c], prefix).value;
             f == if valid(stated.value) then Field(Some(stated.value), ExtractedAt(sourceId, stated.start, |stated.value|)) else Field(None, Defaulted(note))
    ensures StatedRead(blank, sourceId, c, |prefix|, valid, f, note)
  {
    var content := Drop(c.value, |prefix|);
    TrimExactly(blank, content);
    forall t, k: nat | Trimmed(blank, content, t, k)
      ensures if valid(t) then f == Field(Some(t), Extracted(Span(sourceId, c.start + |prefix| + k, c.start + |prefix| + k + |t|)))
              else f == Field(None, Defaulted(note))
    {
      TrimmedUnique(blank, content, t, k, Trim(blank, content), Leading(blank, content));
    }
  }

  lemma OneStated(cells: seq<Cell>, prefix: string, j: nat)
    requires Only(cells, j, Stating(prefix))
    ensures Filter(cells[1..], HasPrefix(prefix)) == [cells[j]]
  {
    StatingAgrees(prefix);
    OnlyOne(cells, HasPrefix(prefix), j);
  }

  lemma StatedAtAll(cells: seq<Cell>, prefix: string)
    requires cells != []
    ensures var chosen := Filter(cells[1..], HasPrefix(prefix));
            (NoneStated(cells, Stating(prefix)) <==> chosen == []) && (|chosen| == 1 ==> exists j: nat :: Only(cells, j, Stating(prefix)))
  {
    StatingAgrees(prefix);
    Attributes(cells, HasPrefix(prefix));
    if j: nat :| Only(cells, j, HasPrefix(prefix)) {
      assert Only(cells, j, Stating(prefix));
    }
  }

  lemma QuantityRead(classes: Classes, sourceId: string, cells: seq<Cell>)
    requires cells != []
    ensures FieldRead(classes.blank, sourceId, cells, "QTY:", Quantities(), Field(Some("1"), Defaulted(classes.wording.oneItem)),
                      QuantityField(classes, sourceId, Filter(cells[1..], HasPrefix("QTY:"))), classes.wording.quantityOpen)
  {
    var chosen := Filter(cells[1..], HasPrefix("QTY:"));
    StatedAtAll(cells, "QTY:");
    if j: nat :| Only(cells, j, Stating("QTY:")) {
      OneStated(cells, "QTY:", j);
    }
    forall j: nat | Only(cells, j, Stating("QTY:"))
      ensures StatedRead(classes.blank, sourceId, cells[j], 4, Quantities(), QuantityField(classes, sourceId, chosen), classes.wording.quantityOpen)
    {
      OneStated(cells, "QTY:", j);
      assert !ValidQuantity("");
      ExplicitRead(classes.blank, sourceId, cells[j], "QTY:", Quantities(), QuantityField(classes, sourceId, [cells[j]]), classes.wording.quantityOpen);
    }
  }

  lemma UnitRead(classes: Classes, sourceId: string, cells: seq<Cell>)
    requires cells != []
    ensures FieldRead(classes.blank, sourceId, cells, "UNIT:", Units(classes), Field(Some("item"), Defaulted(classes.wording.workItem)),
                      UnitField(classes, sourceId, Filter(cells[1..], HasPrefix("UNIT:"))), classes.wording.unitOpen)
  {
    var chosen := Filter(cells[1..], HasPrefix("UNIT:"));
    StatedAtAll(cells, "UNIT:");
    if j: nat :| Only(cells, j, Stating("UNIT:")) {
      OneStated(cells, "UNIT:", j);
    }
    forall j: nat | Only(cells, j, Stating("UNIT:"))
      ensures StatedRead(classes.blank, sourceId, cells[j], 5, Units(classes), UnitField(classes, sourceId, chosen), classes.wording.unitOpen)
    {
      OneStated(cells, "UNIT:", j);
      ExplicitRead(classes.blank, sourceId, cells[j], "UNIT:", Units(classes), UnitField(classes, sourceId, [cells[j]]), classes.wording.unitOpen);
    }
  }

  // ----- rates -----

  /** A pound sign, whole pounds without superfluous zeros and at most two decimals, as pence. */
  predicate PoundsOf(s: string, whole: string, fraction: string, pence: int) {
    && s == "£" + (if fraction == "" then whole else whole + "." + fraction)
    && Canonical(whole) && |whole| <= 11 && AllDigits(fraction) && |fraction| <= 2
    && pence == 100 * DigitsValue(whole) + (if |fraction| == 1 then 10 * DigitsValue(fraction) else DigitsValue(fraction))
    && pence <= 1_000_000_000_000
  }

  lemma {:induction false} PaddedValue(fraction: string)
    requires AllDigits(fraction) && |fraction| <= 2
    ensures AllDigits(PadEnd2(fraction))
    ensures DigitsValue(PadEnd2(fraction)) == if |fraction| == 1 then 10 * DigitsValue(fraction) else DigitsValue(fraction)
  {
    if |fraction| == 1 {
      assert PadEnd2(fraction)[..1] == fraction;
    } else if |fraction| == 0 {
      assert "00"[..1] == "0" && "0"[..0] == "";
    }
  }

  lemma PoundsRead(s: string, whole: string, fraction: string, pence: int)
    requires PoundsOf(s, whole, fraction, pence)
    ensures ExactRate(s) == Some(pence)
  {
    var body := if fraction == "" then whole else whole + "." + fraction;
    assert s[1..] == body;
    PointAt(body, whole, fraction);
    PaddedValue(fraction);
  }

  lemma PoundsExactly(s: string, pence: int)
    ensures ExactRate(s) == Some(pence) <==> exists whole, fraction :: PoundsOf(s, whole, fraction, pence)
  {
    if ExactRate(s) == Some(pence) {
      var body := s[1..];
      var k := IndexOf(body, '.');
      var whole, fraction := body[..k], Drop(body, k + 1);
      PaddedValue(fraction);
      assert body == if fraction == "" then whole else whole + "." + fraction;
      assert s == "£" + body;
      assert PoundsOf(s, whole, fraction, pence);
    }
    if whole, fraction :| PoundsOf(s, whole, fraction, pence) {
      PoundsRead(s, whole, fraction, pence);
    }
  }

  function Rates(): Cell -> bool {
    (c: Cell) => Stating("£")(c) || Stating("RATE:")(c)
  }

  /** The pence of a stated rate, cited where it stands, or nothing when it is no bounded pound literal. */
  predicate PenceRead(classes: Classes, sourceId: string, pence: string -> Option<int>, t: string, at: nat, f: Field<Option<int>>) {
    f == if pence(t).Some? then Field(pence(t), Extracted(Span(sourceId, at, at + |t|)))
         else Field(None, Defaulted(classes.wording.rateOpen))
  }

  function Pence(): string -> Option<int> {
    (s: string) => ExactRate(s)
  }

  /** A rate is the whole cell, or what follows its prefix. */
  ghost predicate RateOf(classes: Classes, sourceId: string, pence: string -> Option<int>, c: Cell, f: Field<Option<int>>) {
    if Stating("RATE:")(c) then forall t, k: nat :: Trimmed(classes.blank, Drop(c.value, 5), t, k) ==> PenceRead(classes, sourceId, pence, t, c.start + 5 + k, f)
    else PenceRead(classes, sourceId, pence, c.value, c.start, f)
  }

  ghost predicate PriceRead(classes: Classes, sourceId: string, cells: seq<Cell>, f: Field<Option<int>>) {
    if NoneStated(cells, Rates()) then f == Field(None, Defaulted(classes.wording.rateUnstated))
    else if exists j: nat :: Only(cells, j, Rates()) then forall j: nat :: Only(cells, j, Rates()) ==> RateOf(classes, sourceId, Pence(), cells[j], f)
    else f == Field(None, Defaulted(classes.wording.rateOpen))
  }

  lemma RatesAlike()
    ensures forall c :: Rates()(c) == IsRate()(c)
  {
    StatingAgrees("£");
    StatingAgrees("RATE:");
    forall c
      ensures Rates()(c) == IsRate()(c)
    {
      assert Stating("£")(c) == HasPrefix("£")(c) && Stating("RATE:")(c) == HasPrefix("RATE:")(c);
    }
  }

  lemma RateFrom(classes: Classes, sourceId: string, rates: seq<Cell>, rate: Cell)
    requires rates != [] && RateCell(classes.blank, rates) == Some(rate)
    ensures PenceRead(classes, sourceId, Pence(), rate.value, rate.start, RateField(classes, sourceId, rates))
  {
  }

  lemma NoPence()
    ensures ExactRate("") == None
  {
  }

  lemma ForAnyTrimmed(blank: Blank, content: string, start: nat, told: (string, nat) -> bool)
    requires told(Trim(blank, content), start + Leading(blank, content)) && forall a, b :: told("", a) == told("", b)
    ensures forall t, k: nat :: Trimmed(blank, content, t, k) ==> told(t, start + k)
  {
    TrimExactly(blank, content);
    forall t, k: nat | Trimmed(blank, content, t, k)
      ensures told(t, start + k)
    {
      TrimmedUnique(blank, content, t, k, Trim(blank, content), Leading(blank, content));
      assert t == "" ==> told("", start + k) == told("", start + Leading(blank, content));
    }
  }

  lemma AfterPrefix(classes: Classes, sourceId: string, pence: string -> Option<int>, c: Cell, content: string, f: Field<Option<int>>)
    requires content == Drop(c.value, 5) && pence("") == None
    requires PenceRead(classes, sourceId, pence, Trim(classes.blank, content), c.start + 5 + Leading(classes.blank, content), f)
    ensures forall t, k: nat :: Trimmed(classes.blank, content, t, k) ==> PenceRead(classes, sourceId, pence, t, c.start + 5 + k, f)
  {
    var told := (t: string, at: nat) => PenceRead(classes, sourceId, pence, t, at, f);
    ForAnyTrimmed(classes.blank, content, c.start + 5, told);
    forall t, k: nat | Trimmed(classes.blank, content, t, k)
      ensures PenceRead(classes, sourceId, pence, t, c.start + 5 + k, f)
    {
      assert told(t, c.start + 5 + k);
    }
  }

  lemma OneRate(classes: Classes, sourceId: string, c: Cell)
    ensures RateOf(classes, sourceId, Pence(), c, RateField(classes, sourceId, [c]))
  {
    StatingAgrees("RATE:");
    assert Stating("RATE:")(c) == HasPrefix("RATE:")(c);
    var f, content := RateField(classes, sourceId, [c]), Drop(c.value, 5);
    if Stating("RATE:")(c) {
      RateFrom(classes, sourceId, [c], Cell(Trim(classes.blank, content), c.start + 5 + Leading(classes.blank, content)));
      NoPence();
      AfterPrefix(classes, sourceId, Pence(), c, content, f);
    } else {
      RateFrom(classes, sourceId, [c], c);
    }
  }

  lemma PriceIsRead(classes: Classes, sourceId: string, cells: seq<Cell>)
    requires cells != []
    ensures PriceRead(classes, sourceId, cells, RateField(classes, sourceId, Filter(cells[1..], IsRate())))
  {
    var chosen := Filter(cells[1..], IsRate());
    RatesAlike();
    Attributes(cells, IsRate());
    assert NoneStated(cells, Rates()) <==> NoneStated(cells, IsRate());
    if |chosen| == 1 {
      var j: nat :| Only(cells, j, IsRate());
      assert Only(cells, j, Rates());
    }
    forall j: nat | Only(cells, j, Rates())
      ensures chosen == [cells[j]] && RateOf(classes, sourceId, Pence(), cells[j], RateField(classes, sourceId, chosen))
    {
      OnlyOne(cells, IsRate(), j);
      OneRate(classes, sourceId, cells[j]);
    }
  }

  // ----- items -----

  /** The first characters of a text, at most so many. */
  predicate FirstOf(s: string, n: nat, t: string) {
    t <= s && |t| == if |s| <= n then |s| else n
  }

  /** A line is read from its item's cells: the first describes it, and the others state the rest. */
  ghost predicate ItemRead(classes: Classes, sourceId: string, cells: seq<Cell>, l: Line) {
    && cells != [] && cells[0].value != "" && FirstOf(cells[0].value, 500, l.description.value)
    && l.description.provenance == Extracted(Span(sourceId, cells[0].start, cells[0].start + |l.description.value|))
    && FieldRead(classes.blank, sourceId, cells, "QTY:", Quantities(), Field(Some("1"), Defaulted(classes.wording.oneItem)), l.quantity, classes.wording.quantityOpen)
    && FieldRead(classes.blank, sourceId, cells, "UNIT:", Units(classes), Field(Some("item"), Defaulted(classes.wording.workItem)), l.unit, classes.wording.unitOpen)
    && PriceRead(classes, sourceId, cells, l.unitPrice)
  }

  lemma LineIsRead(classes: Classes, sourceId: string, cells: seq<Cell>, l: Line)
    requires cells != [] && cells[0].value != "" && l == LineOf(classes, sourceId, cells)
    ensures ItemRead(classes, sourceId, cells, l)
  {
    assert FieldRead(classes.blank, sourceId, cells, "QTY:", Quantities(), Field(Some("1"), Defaulted(classes.wording.oneItem)), l.quantity, classes.wording.quantityOpen) by {
      QuantityRead(classes, sourceId, cells);
    }
    assert FieldRead(classes.blank, sourceId, cells, "UNIT:", Units(classes), Field(Some("item"), Defaulted(classes.wording.workItem)), l.unit, classes.wording.unitOpen) by {
      UnitRead(classes, sourceId, cells);
    }
    assert PriceRead(classes, sourceId, cells, l.unitPrice) by {
      PriceIsRead(classes, sourceId, cells);
    }
  }

  /** What is asked about an item: a description that was shortened, and each thing stated that could not be used. */
  ghost predicate AskedOf(classes: Classes, cells: seq<Cell>, l: Line, q: string)
    requires cells != []
  {
    exists name :: FirstOf(l.description.value, 160, name)
      && (|| (|cells[0].value| > 500 && q == classes.wording.askDescription + name + classes.wording.shortened)
          || (!NoneStated(cells, Rates()) && l.unitPrice.value.None? && q == classes.wording.askRate + name)
          || (!NoneStated(cells, Stating("QTY:")) && l.quantity.value.None? && q == classes.wording.askQuantity + name)
          || (!NoneStated(cells, Stating("UNIT:")) && l.unit.value.None? && q == classes.wording.askUnit + name))
  }

  lemma NameIs(s: string, name: string)
    ensures FirstOf(s, 160, name) <==> name == Take(s, LABEL)
  {
  }

  /** The four things that can be asked, each under its condition. */
  function Asks(classes: Classes, name: string, long: bool, rate: bool, quantity: bool, unit: bool): seq<Field<string>> {
    (if long then [Question(classes, classes.wording.askDescription + name + classes.wording.shortened)] else [])
    + (if rate then [Question(classes, classes.wording.askRate + name)] else [])
    + (if quantity then [Question(classes, classes.wording.askQuantity + name)] else [])
    + (if unit then [Question(classes, classes.wording.askUnit + name)] else [])
  }

  lemma AsksExactly(classes: Classes, name: string, long: bool, rate: bool, quantity: bool, unit: bool, q: Field<string>)
    ensures q in Asks(classes, name, long, rate, quantity, unit) <==>
            && q.provenance == Inferred(classes.wording.ambiguity)
            && (|| (long && q.value == classes.wording.askDescription + name + classes.wording.shortened)
                || (rate && q.value == classes.wording.askRate + name)
                || (quantity && q.value == classes.wording.askQuantity + name)
                || (unit && q.value == classes.wording.askUnit + name))
  {
  }

  lemma ItemAsksAre(classes: Classes, sourceId: string, line: SourceLine, cells: seq<Cell>, l: Line)
    requires cells == Cells(classes.blank, line.raw, line.start) && l == ItemLine(classes, sourceId, line)
    ensures ItemQuestions(classes, sourceId, line) ==
            Asks(classes, Take(l.description.value, LABEL), |cells[0].value| > 500,
                 !NoneStated(cells, Rates()) && l.unitPrice.value.None?,
                 !NoneStated(cells, Stating("QTY:")) && l.quantity.value.None?,
                 !NoneStated(cells, Stating("UNIT:")) && l.unit.value.None?)
  {
    RatesAlike();
    Attributes(cells, IsRate());
    assert NoneStated(cells, Rates()) <==> NoneStated(cells, IsRate());
    StatedAtAll(cells, "QTY:");
    StatedAtAll(cells, "UNIT:");
    assert |l.description.value| < |cells[0].value| <==> |cells[0].value| > 500;
  }

  lemma AskedExactly(classes: Classes, cells: seq<Cell>, l: Line, name: string, rate: bool, quantity: bool, unit: bool, q: string)
    requires cells != [] && name == Take(l.description.value, LABEL)
    requires rate == (!NoneStated(cells, Rates()) && l.unitPrice.value.None?)
    requires quantity == (!NoneStated(cells, Stating("QTY:")) && l.quantity.value.None?)
    requires unit == (!NoneStated(cells, Stating("UNIT:")) && l.unit.value.None?)
    ensures AskedOf(classes, cells, l, q) <==>
            || (|cells[0].value| > 500 && q == classes.wording.askDescription + name + classes.wording.shortened)
            || (rate && q == classes.wording.askRate + name)
            || (quantity && q == classes.wording.askQuantity + name)
            || (unit && q == classes.wording.askUnit + name)
  {
    OneName(l.description.value);
  }

  lemma ItemAsks(classes: Classes, sourceId: string, line: SourceLine, cells: seq<Cell>, l: Line, q: Field<string>)
    requires cells == Cells(classes.blank, line.raw, line.start) && l == ItemLine(classes, sourceId, line)
    ensures q in ItemQuestions(classes, sourceId, line) <==> q.provenance == Inferred(classes.wording.ambiguity) && AskedOf(classes, cells, l, q.value)
  {
    var name := Take(l.description.value, LABEL);
    var rate, quantity, unit := !NoneStated(cells, Rates()) && l.unitPrice.value.None?, !NoneStated(cells, Stating("QTY:")) && l.quantity.value.None?,
                                !NoneStated(cells, Stating("UNIT:")) && l.unit.value.None?;
    ItemAsksAre(classes, sourceId, line, cells, l);
    AsksExactly(classes, name, |cells[0].value| > 500, rate, quantity, unit, q);
    AskedExactly(classes, cells, l, name, rate, quantity, unit, q.value);
  }

  lemma OneName(s: string)
    ensures forall name :: FirstOf(s, 160, name) <==> name == Take(s, LABEL)
  {
    forall name
      ensures FirstOf(s, 160, name) <==> name == Take(s, LABEL)
    {
      NameIs(s, name);
    }
  }

  // ----- the text -----

  function ItemLines(): SourceLine -> bool {
    (line: SourceLine) => |line.raw| >= 5 && line.raw[..5] == "ITEM:"
  }

  predicate Tabs(s: string) {
    forall j :: 0 <= j < |s| ==> s[j] == ' ' || s[j] == '\t'
  }

  /** Only spaces and tabs before something visible. */
  predicate VisibleAt(blank: Blank, s: string, i: nat) {
    i < |s| && Tabs(s[..i]) && s[i] != ' ' && s[i] != '\t' && !blank(s[i])
  }

  ghost predicate Titled(blank: Blank, raw: string) {
    |raw| >= 4 && raw[..4] == "JOB:" && exists i: nat :: VisibleAt(blank, raw[4..], i)
  }

  ghost function TitleLines(blank: Blank): SourceLine -> bool {
    (line: SourceLine) => Titled(blank, line.raw)
  }

  lemma {:induction false} SkipTabsIs(s: string) returns (i: nat)
    ensures i <= |s| && SkipTabs(s) == s[i..] && Tabs(s[..i]) && (i < |s| ==> s[i] != ' ' && s[i] != '\t')
  {
    if s != "" && (s[0] == ' ' || s[0] == '\t') {
      var k := SkipTabsIs(s[1..]);
      i := k + 1;
      assert s[1..][k..] == s[i..] && s[..i] == [s[0]] + s[1..][..k];
    } else {
      i := 0;
      assert s == s[0..];
    }
  }

  lemma TabsBefore(s: string, n: nat)
    requires n <= |s| && Tabs(s[..n])
    ensures forall j :: 0 <= j < n ==> s[j] == ' ' || s[j] == '\t'
  {
    assert forall j :: 0 <= j < n ==> s[..n][j] == s[j];
  }

  lemma VisibleOnce(blank: Blank, s: string, i: nat, m: nat)
    requires i <= |s| && Tabs(s[..i]) && (i < |s| ==> s[i] != ' ' && s[i] != '\t') && VisibleAt(blank, s, m)
    ensures i == m
  {
    TabsBefore(s, i);
    TabsBefore(s, m);
  }

  lemma TitlesAlike(blank: Blank, line: SourceLine)
    ensures IsTitle(blank)(line) == TitleLines(blank)(line)
  {
    if |line.raw| >= 4 && line.raw[..4] == "JOB:" {
      var rest := line.raw[4..];
      assert Drop(line.raw, 4) == rest && "JOB:" <= line.raw;
      var i := SkipTabsIs(rest);
      if m: nat :| VisibleAt(blank, rest, m) {
        VisibleOnce(blank, rest, i, m);
      }
      assert SkipTabs(rest) != "" ==> SkipTabs(rest)[0] == rest[i];
      assert IsTitle(blank)(line) ==> VisibleAt(blank, rest, i);
    }
  }

  lemma ItemsAlike(line: SourceLine)
    ensures IsItem()(line) == ItemLines()(line)
  {
  }

  lemma {:induction false} FilterAlike<T(!new)>(all: seq<T>, p: T -> bool, q: T -> bool)
    requires forall x :: x in all ==> p(x) == q(x)
    ensures Filter(all, p) == Filter(all, q)
  {
    if all != [] {
      FilterAlike(all[1..], p, q);
    }
  }

  lemma {:induction false} PickedItems(lines: seq<SourceLine>)
    ensures Picked(lines, Filter(lines, IsItem()), ItemLines())
  {
    forall line | line in lines
      ensures IsItem()(line) == ItemLines()(line)
    {
      ItemsAlike(line);
    }
    FilterAlike(lines, IsItem(), ItemLines());
    FilterPicks(lines, ItemLines());
  }

  lemma {:induction false} PickedTitles(blank: Blank, lines: seq<SourceLine>)
    ensures Picked(lines, Filter(lines, IsTitle(blank)), TitleLines(blank))
  {
    forall line | line in lines
      ensures IsTitle(blank)(line) == TitleLines(blank)(line)
    {
      TitlesAlike(blank, line);
    }
    FilterAlike(lines, IsTitle(blank), TitleLines(blank));
    FilterPicks(lines, TitleLines(blank));
  }

  /** A text without items is one line: its first characters, without the white space around it. */
  ghost predicate NoteRead(classes: Classes, sourceId: string, text: string, l: Line) {
    && (forall t, k: nat :: Trimmed(classes.blank, text, t, k) ==>
          FirstOf(t, 500, l.description.value) && l.description.provenance == Extracted(Span(sourceId, k, k + |l.description.value|)))
    && l.quantity == Field(None, Defaulted(classes.wording.quantityUnstated)) && l.unit == Field(None, Defaulted(classes.wording.unitUnstated))
    && l.unitPrice == Field(None, Defaulted(classes.wording.rateUnstated))
  }

  lemma NoteIsRead(classes: Classes, sourceId: string, text: string)
    requires Trim(classes.blank, text) != ""
    ensures NoteRead(classes, sourceId, text, NoteLine(classes, sourceId, text))
  {
    assert text[0..] == text;
    FindTrimmed(classes.blank, text, 0);
    TrimExactly(classes.blank, text);
    forall t, k: nat | Trimmed(classes.blank, text, t, k)
      ensures t == Trim(classes.blank, text) && k == Leading(classes.blank, text)
    {
      TrimmedUnique(classes.blank, text, t, k, Trim(classes.blank, text), Leading(classes.blank, text));
    }
  }

  /** The title is what the first title line says after its mark, cited where it stands. */
  ghost predicate TitleRead(classes: Classes, sourceId: string, titles: seq<SourceLine>, f: Field<string>) {
    var none := Field(classes.wording.untitled, Defaulted(classes.wording.noTitle));
    if titles == [] then f == none
    else forall t, k: nat :: Trimmed(classes.blank, Drop(titles[0].raw, 4), t, k) ==>
           if t == "" then f == none
           else |t| <= 200 && f == Field(t, Extracted(Span(sourceId, titles[0].start + 4 + k, titles[0].start + 4 + k + |t|)))
  }

  lemma {:induction false} TitlePlace(blank: Blank, raw: string, t: string, k: nat)
    requires |raw| >= 4 && Trimmed(blank, Drop(raw, 4), t, k)
    ensures t == Trim(blank, Drop(raw, 4)) && (t != "" ==> Find(raw, t, 4) == 4 + k)
  {
    var rest := Drop(raw, 4);
    assert rest == raw[4..];
    TrimExactly(blank, rest);
    TrimmedUnique(blank, rest, t, k, Trim(blank, rest), Leading(blank, rest));
    if t != "" {
      FindTrimmed(blank, raw, 4);
    }
  }

  lemma TitleIsRead(classes: Classes, sourceId: string, titles: seq<SourceLine>)
    requires titles != [] ==> |titles[0].raw| >= 4 && |TitleValue(classes.blank, titles[0])| <= MAX_TITLE
    ensures TitleRead(classes, sourceId, titles, TitleField(classes, sourceId, titles))
  {
    if titles != [] {
      forall t, k: nat | Trimmed(classes.blank, Drop(titles[0].raw, 4), t, k)
        ensures t == TitleValue(classes.blank, titles[0]) && (t != "" ==> Find(titles[0].raw, t, 4) == 4 + k)
      {
        TitlePlace(classes.blank, titles[0].raw, t, k);
      }
    }
  }

  /** What is asked about the whole: what comes first of all, which title applies, and what a shortened note means. */
  ghost predicate OpeningAsked(classes: Classes, text: string, items: seq<SourceLine>, titles: seq<SourceLine>, q: string) {
    || q == (if items != [] then classes.wording.askDisposal else classes.wording.askItems)
    || (|titles| > 1 && q == classes.wording.askTitle)
    || (items == [] && q == classes.wording.askNote && exists t, k: nat :: Trimmed(classes.blank, text, t, k) && |t| > 500)
  }

  lemma OpeningExactly(classes: Classes, text: string, items: seq<SourceLine>, titles: seq<SourceLine>, q: Field<string>)
    ensures q in FirstQuestions(classes, text, items, titles) <==>
            q.provenance == Inferred(classes.wording.ambiguity) && OpeningAsked(classes, text, items, titles, q.value)
  {
    TrimExactly(classes.blank, text);
    assert (exists t, k: nat :: Trimmed(classes.blank, text, t, k) && |t| > 500) <==> |Trim(classes.blank, text)| > 500 by {
      if t, k: nat :| Trimmed(classes.blank, text, t, k) && |t| > 500 {
        TrimmedUnique(classes.blank, text, t, k, Trim(classes.blank, text), Leading(classes.blank, text));
      }
    }
  }

  /** Every item's line is read from its cells. */
  ghost predicate ItemsRead(classes: Classes, sourceId: string, items: seq<SourceLine>, cells: seq<seq<Cell>>, lines: seq<Line>) {
    && |cells| == |items| == |lines|
    && forall i :: 0 <= i < |items| ==> CellsRead(classes.blank, items[i], cells[i]) && ItemRead(classes, sourceId, cells[i], lines[i])
  }

  /** Everything that is asked, and nothing else. */
  ghost predicate QuestionsRead(classes: Classes, text: string, items: seq<SourceLine>, titles: seq<SourceLine>, cells: seq<seq<Cell>>, output: Proposal)
    requires |cells| == |items| && (items != [] ==> |items| == |output.lines|) && forall i :: 0 <= i < |cells| ==> cells[i] != []
  {
    forall q :: q in output.questions <==>
      && q.provenance == Inferred(classes.wording.ambiguity)
      && (OpeningAsked(classes, text, items, titles, q.value)
          || exists i :: 0 <= i < |items| && AskedOf(classes, cells[i], output.lines[i], q.value))
  }

  /** How a proposal is read from its text: all of its lines, in order. */
  ghost predicate ReadAs(classes: Classes, sourceId: string, text: string, lines: seq<SourceLine>, items: seq<SourceLine>, titles: seq<SourceLine>,
                         cells: seq<seq<Cell>>, output: Proposal) {
    && LinesRead(text, lines) && Picked(lines, items, ItemLines()) && Picked(lines, titles, TitleLines(classes.blank))
    && |items| <= 100 && |cells| == |items| && (forall i :: 0 <= i < |cells| ==> cells[i] != [])
    && (if items == [] then |output.lines| == 1 && NoteRead(classes, sourceId, text, output.lines[0])
        else ItemsRead(classes, sourceId, items, cells, output.lines))
    && TitleRead(classes, sourceId, titles, output.title)
    && output.materials == [Field(classes.wording.materials, Inferred(classes.wording.suggestion))]
    && QuestionsRead(classes, text, items, titles, cells, output)
  }

  lemma {:induction false} RaisedExactly(parsed: seq<ParsedItem>, q: Field<string>)
    ensures q in Raised(parsed) <==> exists i :: 0 <= i < |parsed| && q in parsed[i].1
  {
    if parsed != [] {
      var n := |parsed| - 1;
      RaisedExactly(parsed[..n], q);
      assert Raised(parsed) == Raised(parsed[..n]) + parsed[n].1;
      if i :| 0 <= i < n && q in parsed[..n][i].1 {
        assert q in parsed[i].1;
      }
      if i :| 0 <= i < |parsed| && q in parsed[i].1 {
        assert i < n ==> parsed[..n][i] == parsed[i];
      }
    }
  }

  function AllCells(blank: Blank, items: seq<SourceLine>): (cells: seq<seq<Cell>>)
    ensures |cells| == |items| && forall i :: 0 <= i < |items| ==> cells[i] == Cells(blank, items[i].raw, items[i].start)
  {
    Map(items, (line: SourceLine) => Cells(blank, line.raw, line.start))
  }

  lemma ItemsAreRead(classes: Classes, sourceId: string, items: seq<SourceLine>, parsed: seq<ParsedItem>)
    requires |parsed| == |items| && forall i :: 0 <= i < |items| ==> ItemParser(classes, sourceId)(items[i]) == Some(parsed[i])
    ensures ItemsRead(classes, sourceId, items, AllCells(classes.blank, items), LinesOf(parsed))
  {
    forall i | 0 <= i < |items|
      ensures CellsRead(classes.blank, items[i], AllCells(classes.blank, items)[i])
      ensures ItemRead(classes, sourceId, AllCells(classes.blank, items)[i], LinesOf(parsed)[i])
    {
      CellsAre(classes.blank, items[i]);
      LineIsRead(classes, sourceId, Cells(classes.blank, items[i].raw, items[i].start), parsed[i].0);
    }
  }

  lemma {:induction false} ItemAsked(classes: Classes, sourceId: string, items: seq<SourceLine>, parsed: seq<ParsedItem>, q: Field<string>)
    requires |parsed| == |items| && forall i :: 0 <= i < |items| ==> ItemParser(classes, sourceId)(items[i]) == Some(parsed[i])
    ensures q in Raised(parsed) <==>
            && q.provenance == Inferred(classes.wording.ambiguity)
            && exists i :: 0 <= i < |items| && AskedOf(classes, AllCells(classes.blank, items)[i], LinesOf(parsed)[i], q.value)
  {
    RaisedExactly(parsed, q);
    forall i | 0 <= i < |items|
      ensures q in parsed[i].1 <==>
              q.provenance == Inferred(classes.wording.ambiguity) && AskedOf(classes, AllCells(classes.blank, items)[i], LinesOf(parsed)[i], q.value)
    {
      ItemAsks(classes, sourceId, items[i], AllCells(classes.blank, items)[i], LinesOf(parsed)[i], q);
    }
  }

  lemma {:induction false} QuestionsAreRead(classes: Classes, sourceId: string, text: string, items: seq<SourceLine>, titles: seq<SourceLine>, parsed: seq<ParsedItem>, output: Proposal)
    requires |parsed| == |items| && forall i :: 0 <= i < |items| ==> ItemParser(classes, sourceId)(items[i]) == Some(parsed[i])
    requires items != [] ==> output.lines == LinesOf(parsed)
    requires output.questions == FirstQuestions(classes, text, items, titles) + Raised(parsed)
    ensures QuestionsRead(classes, text, items, titles, AllCells(classes.blank, items), output)
  {
    forall q
      ensures q in output.questions <==>
              && q.provenance == Inferred(classes.wording.ambiguity)
              && (OpeningAsked(classes, text, items, titles, q.value)
                  || exists i :: 0 <= i < |items| && AskedOf(classes, AllCells(classes.blank, items)[i], output.lines[i], q.value))
    {
      OpeningExactly(classes, text, items, titles, q);
      ItemAsked(classes, sourceId, items, parsed, q);
    }
  }

  lemma {:induction false} TitleLineLong(blank: Blank, lines: seq<SourceLine>, titles: seq<SourceLine>)
    requires titles == Filter(lines, IsTitle(blank)) && titles != []
    ensures |titles[0].raw| >= 4
  {
    assert titles[0] in titles;
  }

  /** An accepted text's proposal is read from it completely: every line, cell, field, title and question. */
  lemma ParsedAsRead(classes: Classes, sourceId: string, text: string) returns (lines: seq<SourceLine>, items: seq<SourceLine>, titles: seq<SourceLine>, cells: seq<seq<Cell>>)
    requires Parse(classes, sourceId, text).Ok?
    ensures ReadAs(classes, sourceId, text, lines, items, titles, cells, Parse(classes, sourceId, text).value)
  {
    var output := Parse(classes, sourceId, text).value;
    var parsed;
    lines, titles := Lines(text), Filter(Lines(text), IsTitle(classes.blank));
    items, parsed := ParsedItems(classes, sourceId, text);
    cells := AllCells(classes.blank, items);
    LinesAre(text);
    PickedItems(lines);
    PickedTitles(classes.blank, lines);
    if titles != [] {
      TitleLineLong(classes.blank, lines, titles);
    }
    TitleIsRead(classes, sourceId, titles);
    if items == [] {
      NoteIsRead(classes, sourceId, text);
    } else {
      ItemsAreRead(classes, sourceId, items, parsed);
    }
    QuestionsAreRead(classes, sourceId, text, items, titles, parsed, output);
  }

  // ----- which texts are accepted -----

  predicate SomethingVisible(blank: Blank, s: string) {
    exists i :: 0 <= i < |s| && !blank(s[i])
  }

  lemma VisibleExactly(blank: Blank, s: string)
    ensures Trim(blank, s) != "" <==> SomethingVisible(blank, s)
  {
    TrimExactly(blank, s);
    var t, k := Trim(blank, s), Leading(blank, s);
    if t != "" {
      assert s[k] == t[0];
    }
  }

  /** Something visible stands between the mark and the first bar. */
  predicate DescribesItem(blank: Blank, line: SourceLine) {
    exists n :: 0 <= n <= |line.raw| - 5 && SomethingVisible(blank, line.raw[5..][..n]) && '|' !in line.raw[5..][..n]
  }

  lemma {:induction false} BarAfter(rest: string, n: nat)
    requires n <= |rest| && '|' !in rest[..n]
    ensures n <= IndexOf(rest, '|')
  {
    forall i | 0 <= i < n
      ensures rest[i] != '|'
    {
      assert rest[i] == rest[..n][i] && rest[..n][i] in rest[..n];
    }
  }

  lemma FirstCell(blank: Blank, line: SourceLine)
    requires |line.raw| >= 5
    ensures Described(blank, line) <==> DescribesItem(blank, line)
  {
    var rest := line.raw[5..];
    var k := IndexOf(rest, '|');
    assert Drop(line.raw, 5) == rest;
    assert Split(rest, '|')[0] == rest[..k] by {
      assert rest[..|rest|] == rest;
    }
    VisibleExactly(blank, rest[..k]);
    if Described(blank, line) {
      assert '|' !in rest[..k];
    }
    if n :| 0 <= n <= |line.raw| - 5 && SomethingVisible(blank, rest[..n]) && '|' !in rest[..n] {
      BarAfter(rest, n);
      var i :| 0 <= i < n && !blank(rest[..n][i]);
      assert rest[..k][i] == rest[..n][i];
    }
  }

  lemma {:induction false} ItemsParse(classes: Classes, sourceId: string, items: seq<SourceLine>)
    requires forall line :: line in items ==> |line.raw| >= 5
    ensures MapAll(items, ItemParser(classes, sourceId)).Some? <==> forall line :: line in items ==> DescribesItem(classes.blank, line)
  {
    MapAllAt(items, ItemParser(classes, sourceId));
    forall i | 0 <= i < |items|
      ensures ItemParser(classes, sourceId)(items[i]).Some? <==> DescribesItem(classes.blank, items[i])
    {
      assert items[i] in items;
      FirstCell(classes.blank, items[i]);
    }
    if forall i :: 0 <= i < |items| ==> DescribesItem(classes.blank, items[i]) {
      forall line | line in items
        ensures DescribesItem(classes.blank, line)
      {
        var i :| 0 <= i < |items| && items[i] == line;
      }
    }
    if forall line :: line in items ==> DescribesItem(classes.blank, line) {
      forall i | 0 <= i < |items|
        ensures DescribesItem(classes.blank, items[i])
      {
        assert items[i] in items;
      }
    }
  }

  /** A text is refused as a source for its size or emptiness, and otherwise for too many items, a long title or an item without description. */
  lemma ParsedExactly(classes: Classes, sourceId: string, text: string)
    ensures var items, titles := Filter(Lines(text), IsItem()), Filter(Lines(text), IsTitle(classes.blank));
            var source := 1 <= |sourceId| <= 128 && |text| <= 50_000 && SomethingVisible(classes.blank, text);
            && (Parse(classes, sourceId, text) == Err(InvalidFixtureSource) <==> !source)
            && (Parse(classes, sourceId, text).Ok? <==>
                  && source && |items| <= 100 && (titles != [] ==> |Trim(classes.blank, Drop(titles[0].raw, 4))| <= 200)
                  && forall line :: line in items ==> DescribesItem(classes.blank, line))
  {
    VisibleExactly(classes.blank, text);
    ItemsParse(classes, sourceId, Filter(Lines(text), IsItem()));
  }
}
