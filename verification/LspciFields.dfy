/** Two readers of a line of `lspci -mm` (agent/internal/account/hwinfo_linux.go, agent/internal/app/gpus_linux.go):
    one goes from quote to quote behind the slot, the other splits the whole line at quotes. */
module LspciFields {

  import opened Options

  const Q := '"'

  /** strings.IndexByte; the length when there is none. */
  function Find(s: string, c: char): (i: nat)
    ensures i <= |s|
  {
    if s == "" || s[0] == c then 0 else 1 + Find(s[1..], c)
  }

  /** strings.Cut at one character. */
  datatype Cut = Whole | At(before: string, behind: string)

  function CutAt(s: string, c: char): (r: Cut)
    ensures r.At? ==> |r.behind| < |s|
  {
    var i := Find(s, c);
    if i == |s| then Whole else At(s[..i], s[i + 1..])
  }

  /** strings.Split at quotes. */
  function Split(s: string): (parts: seq<string>)
    ensures parts != []
    decreases |s|
  {
    match CutAt(s, Q)
    case Whole => [s]
    case At(before, behind) => [before] + Split(behind)
  }

  function QuoteCount(s: string): nat { |Split(s)| - 1 }

  /** A text by its first two quotes. */
  datatype Pair = Pair(gap: string, field: string, behind: string) | NoPair

  function FirstPair(s: string): (p: Pair)
    ensures p.Pair? ==> |p.behind| < |s|
  {
    match CutAt(s, Q)
    case Whole => NoPair
    case At(gap, later) =>
      match CutAt(later, Q)
      case Whole => NoPair
      case At(field, behind) => Pair(gap, field, behind)
  }

  /** What stands between one quote and the next, pair by pair. */
  function QuotedFields(rest: string): seq<string>
    decreases |rest|
  {
    match FirstPair(rest)
    case NoPair => []
    case Pair(_, field, behind) => [field] + QuotedFields(behind)
  }

  /** The slot and the fields; nothing without a space. */
  function Parse(line: string): Option<seq<string>> {
    match CutAt(line, ' ')
    case Whole => None
    case At(slot, rest) => Some([slot] + QuotedFields(rest))
  }

  /** splitQuoted. */
  method SplitQuoted(line: string) returns (r: Option<seq<string>>)
    ensures r == Parse(line)
  {
    match CutAt(line, ' ') {
      case Whole => r := None;
      case At(slot, rest) =>
        var fields := QuotedLoop(rest);
        r := Some([slot] + fields);
    }
  }

  /** Its loop. */
  method QuotedLoop(behind: string) returns (out: seq<string>)
    ensures out == QuotedFields(behind)
  {
    out := [];
    var rest := behind;
    while true
      invariant QuotedFields(behind) == out + QuotedFields(rest)
      decreases |rest|
    {
      var i := Find(rest, Q);
      if i == |rest| { return; }
      var later := rest[i + 1..];
      var j := Find(later, Q);
      if j == |later| { return; }
      assert FirstPair(rest) == Pair(rest[..i], later[..j], later[j + 1..]);
      SumOfThree(out, [later[..j]], QuotedFields(later[j + 1..]));
      out := out + [later[..j]];
      rest := later[j + 1..];
    }
  }

  lemma SumOfThree<T>(a: seq<T>, b: seq<T>, c: seq<T>)
    ensures a + (b + c) == (a + b) + c
  {
  }

  // ---------------------------------------------------------------- agreement

  lemma {:induction false} FindIs(a: string, c: char, b: string)
    requires c !in a
    ensures Find(a + ([c] + b), c) == |a| && Find(a, c) == |a|
  {
    if a == "" {
      assert a + ([c] + b) == [c] + b;
    } else {
      assert (a + ([c] + b))[1..] == a[1..] + ([c] + b);
      assert a[0] in a;
      FindIs(a[1..], c, b);
    }
  }

  lemma {:induction false} Found(s: string, c: char)
    ensures c !in s[..Find(s, c)] && (Find(s, c) < |s| ==> s[Find(s, c)] == c)
  {
    if s == "" || s[0] == c {
    } else {
      Found(s[1..], c);
      assert s[..Find(s, c)] == [s[0]] + s[1..][..Find(s[1..], c)];
    }
  }

  /** What a cut says of the text. */
  lemma CutMeans(s: string, c: char)
    ensures match CutAt(s, c)
            case Whole => c !in s
            case At(before, behind) => c !in before && s == before + ([c] + behind)
  {
    Found(s, c);
    if Find(s, c) == |s| { assert s[..|s|] == s; }
  }

  lemma CutIs(a: string, c: char, b: string)
    requires c !in a
    ensures CutAt(a + ([c] + b), c) == At(a, b) && CutAt(a, c) == Whole
  {
    FindIs(a, c, b);
    var s := a + ([c] + b);
    assert s[..|a|] == a && s[|a| + 1..] == b;
  }

  lemma SplitNone(a: string)
    requires Q !in a
    ensures Split(a) == [a]
  {
    CutIs(a, Q, "");
  }

  lemma SplitAtQuote(a: string, b: string)
    requires Q !in a
    ensures Split(a + ([Q] + b)) == [a] + Split(b)
  {
    CutIs(a, Q, b);
  }

  lemma SplitPair(gap: string, field: string, behind: string)
    requires Q !in gap && Q !in field
    ensures Split(gap + ([Q] + (field + ([Q] + behind)))) == [gap, field] + Split(behind)
  {
    SplitAtQuote(gap, field + ([Q] + behind));
    SplitAtQuote(field, behind);
  }

  lemma TwoFirst<T>(x: T, y: T, more: seq<T>)
    ensures [x] + ([y] + more) == [x, y] + more
  {
  }

  lemma SplitByPair(s: string)
    ensures match FirstPair(s)
            case NoPair => |Split(s)| <= 2
            case Pair(gap, field, behind) => Split(s) == [gap, field] + Split(behind)
  {
    match CutAt(s, Q)
    case Whole =>
    case At(gap, later) =>
      match CutAt(later, Q)
      case Whole => assert Split(later) == [later];
      case At(field, behind) => TwoFirst(gap, field, Split(behind));
  }

  /** The odd parts of a list. */
  predicate OddParts(fields: seq<string>, parts: seq<string>) {
    |fields| == (|parts| - 1) / 2 && forall k | 0 <= k < |fields| :: fields[k] == parts[2 * k + 1]
  }

  lemma OddPartsGrow(fields: seq<string>, parts: seq<string>, gap: string, field: string)
    requires parts != [] && OddParts(fields, parts)
    ensures OddParts([field] + fields, [gap, field] + parts)
  {
    var f, p := [field] + fields, [gap, field] + parts;
    forall k | 0 <= k < |f| ensures f[k] == p[2 * k + 1] {
      if k > 0 { assert fields[k - 1] == parts[2 * (k - 1) + 1]; }
    }
  }

  /** The fields are the odd parts, one for every complete pair of quotes. */
  lemma {:induction false} FieldsAreOddParts(rest: string)
    ensures OddParts(QuotedFields(rest), Split(rest))
    decreases |rest|
  {
    SplitByPair(rest);
    match FirstPair(rest)
    case NoPair =>
    case Pair(gap, field, behind) =>
      FieldsAreOddParts(behind);
      OddPartsGrow(QuotedFields(behind), Split(behind), gap, field);
  }

  lemma SplitFirst(a: string, b: string)
    requires Q !in a
    ensures Split(a + b) == [a + Split(b)[0]] + Split(b)[1..]
  {
    CutMeans(b, Q);
    match CutAt(b, Q)
    case Whole =>
      SplitNone(b);
      SplitNone(a + b);
    case At(gap, later) => SplitFirstQuoted(a, gap, later);
  }

  lemma SplitFirstQuoted(a: string, gap: string, later: string)
    requires Q !in a && Q !in gap
    ensures var b := gap + ([Q] + later); Split(a + b) == [a + gap] + Split(later) && Split(b) == [gap] + Split(later)
  {
    SplitAtQuote(gap, later);
    SplitAtQuote(a + gap, later);
    SumOfThree(a, gap, [Q] + later);
  }

  /** The parts of a text behind another are its own, but the first. */
  lemma {:induction false} SplitOfSum(a: string, b: string)
    ensures Split(a + b) == Split(a)[..QuoteCount(a)] + [Split(a)[QuoteCount(a)] + Split(b)[0]] + Split(b)[1..]
    decreases |a|
  {
    CutMeans(a, Q);
    match CutAt(a, Q)
    case Whole =>
      SplitNone(a);
      SplitFirst(a, b);
    case At(gap, later) =>
      assert a + b == gap + ([Q] + (later + b));
      SplitAtQuote(gap, later);
      SplitAtQuote(gap, later + b);
      SplitOfSum(later, b);
      SumGrows(gap, Split(later), Split(b));
  }

  lemma SumGrows(first: string, p: seq<string>, q: seq<string>)
    requires p != [] && q != []
    ensures var all := [first] + p; var n := |p| - 1;
            [first] + (p[..n] + [p[n] + q[0]] + q[1..]) == all[..n + 1] + [all[n + 1] + q[0]] + q[1..]
  {
    var n := |p| - 1;
    assert ([first] + p)[..n + 1] == [first] + p[..n];
  }

  /** The text behind the slot brings its own parts, but the first, into those of the line. */
  lemma LineParts(slot: string, rest: string)
    ensures var line := slot + ([' '] + rest);
            && QuoteCount(line) == QuoteCount(slot) + QuoteCount(rest)
            && Split(line)[QuoteCount(slot) + 1..] == Split(rest)[1..]
  {
    SplitOfSum(slot, [' '] + rest);
    SplitFirst([' '], rest);
  }

  lemma OddPartsMoved(fields: seq<string>, parts: seq<string>, all: seq<string>, n: nat, k: nat)
    requires parts != [] && OddParts(fields, parts) && 1 <= k <= |fields|
    requires n < |all| && all[n + 1..] == parts[1..]
    ensures n + 2 * k - 1 < |all| && fields[k - 1] == all[n + 2 * k - 1]
  {
    assert fields[k - 1] == parts[2 * (k - 1) + 1] == parts[1..][2 * k - 2];
    assert all[n + 1..][2 * k - 2] == all[n + 2 * k - 1];
  }

  lemma FieldsInLine(slot: string, rest: string, k: nat)
    requires 1 <= k <= |QuotedFields(rest)|
    ensures var parts := Split(slot + ([' '] + rest));
            && QuoteCount(slot) + 2 * k - 1 < |parts|
            && QuotedFields(rest)[k - 1] == parts[QuoteCount(slot) + 2 * k - 1]
  {
    LineParts(slot, rest);
    FieldsAreOddParts(rest);
    OddPartsMoved(QuotedFields(rest), Split(rest), Split(slot + ([' '] + rest)), QuoteCount(slot), k);
  }

  lemma ParseIs(line: string) returns (rest: string)
    requires Parse(line).Some?
    ensures Parse(line).value != []
    ensures line == Parse(line).value[0] + ([' '] + rest) && Parse(line).value[1..] == QuotedFields(rest)
  {
    CutMeans(line, ' ');
    rest := CutAt(line, ' ').behind;
  }

  /** One reader's field `k` is the other's part `2k-1`, moved on by the quotes in the slot. */
  lemma ReadersAgree(line: string, k: nat)
    requires Parse(line).Some? && 1 <= k < |Parse(line).value|
    ensures var slot := Parse(line).value[0];
            && QuoteCount(slot) + 2 * k - 1 < |Split(line)|
            && Parse(line).value[k] == Split(line)[QuoteCount(slot) + 2 * k - 1]
  {
    var rest := ParseIs(line);
    var fields := Parse(line).value;
    FieldsInLine(fields[0], rest, k);
    assert fields[k] == fields[1..][k - 1];
  }

  /** And it finds one for every complete pair of quotes behind the slot. */
  lemma FieldCount(line: string)
    requires Parse(line).Some?
    ensures Parse(line).value != []
    ensures |Parse(line).value| - 1 == (QuoteCount(line) - QuoteCount(Parse(line).value[0])) / 2
  {
    var rest := ParseIs(line);
    LineParts(Parse(line).value[0], rest);
    FieldsAreOddParts(rest);
  }

  /** With no quote in the slot both find the same fields, and the same number of complete ones. */
  lemma ReadersAgreeOnLines(line: string)
    requires Parse(line).Some? && Q !in Parse(line).value[0]
    ensures |Parse(line).value| - 1 == (|Split(line)| - 1) / 2
    ensures forall k | 1 <= k < |Parse(line).value| :: Parse(line).value[k] == Split(line)[2 * k - 1]
  {
    var fields, parts := Parse(line).value, Split(line);
    FieldCount(line);
    SplitNone(fields[0]);
    forall k | 1 <= k < |fields| ensures fields[k] == parts[2 * k - 1] {
      ReadersAgree(line, k);
    }
  }

  // ---------------------------------------------------------------- what each reader takes

  /** The hardware report takes a line with class, vendor and device; the GPU list wants another quote behind them. */
  lemma GpuListWantsAnotherQuote(line: string)
    requires Parse(line).Some? && Q !in Parse(line).value[0]
    ensures |Parse(line).value| >= 4 <==> |Split(line)| >= 7
    ensures |Split(line)| >= 8 ==> Split(line)[3] == Parse(line).value[2] && Split(line)[5] == Parse(line).value[3]
  {
    ReadersAgreeOnLines(line);
  }

  // ---------------------------------------------------------------- rendering

  /** A field in quotes and what stands before it, such as a space or `-r01`. */
  datatype Item = Item(gap: string, field: string)

  predicate QuoteFree(items: seq<Item>) {
    forall i | i in items :: Q !in i.gap && Q !in i.field
  }

  function Render(items: seq<Item>): string {
    if items == [] then "" else items[0].gap + ([Q] + (items[0].field + ([Q] + Render(items[1..]))))
  }

  function FieldsOf(items: seq<Item>): seq<string> {
    if items == [] then [] else [items[0].field] + FieldsOf(items[1..])
  }

  lemma FieldFirst(gap: string, field: string, behind: string)
    requires Q !in gap && Q !in field
    ensures QuotedFields(gap + ([Q] + (field + ([Q] + behind)))) == [field] + QuotedFields(behind)
  {
    CutIs(gap, Q, field + ([Q] + behind));
    CutIs(field, Q, behind);
  }

  /** What is behind the last pair of quotes has at most one. */
  lemma FieldsNone(tail: string)
    ensures QuotedFields(tail) == [] <==> QuoteCount(tail) <= 1
  {
    FieldsAreOddParts(tail);
  }

  lemma {:induction false} RenderedFields(items: seq<Item>, tail: string)
    requires QuoteFree(items) && QuoteCount(tail) <= 1
    ensures QuotedFields(Render(items) + tail) == FieldsOf(items)
  {
    if items == [] {
      assert "" + tail == tail;
      FieldsNone(tail);
    } else {
      assert items[0] in items;
      var i, later := items[0], Render(items[1..]) + tail;
      assert Render(items) + tail == i.gap + ([Q] + (i.field + ([Q] + later)));
      FieldFirst(i.gap, i.field, later);
      RenderedFields(items[1..], tail);
    }
  }

  /** A line printed from a slot and fields is read as just these. */
  lemma RenderRoundTrip(slot: string, items: seq<Item>, tail: string)
    requires ' ' !in slot && QuoteFree(items) && QuoteCount(tail) <= 1
    ensures Parse(slot + ([' '] + (Render(items) + tail))) == Some([slot] + FieldsOf(items))
  {
    CutIs(slot, ' ', Render(items) + tail);
    RenderedFields(items, tail);
  }

  /** Gaps and fields take turns in a list. */
  predicate TakeTurns(items: seq<Item>, parts: seq<string>) {
    2 * |items| <= |parts| &&
    forall j | 0 <= j < |items| :: parts[2 * j] == items[j].gap && parts[2 * j + 1] == items[j].field
  }

  lemma TurnsGrow(i: Item, items: seq<Item>, parts: seq<string>)
    requires TakeTurns(items, parts)
    ensures TakeTurns([i] + items, [i.gap, i.field] + parts)
  {
    var all, p := [i] + items, [i.gap, i.field] + parts;
    forall j | 0 <= j < |all| ensures p[2 * j] == all[j].gap && p[2 * j + 1] == all[j].field {
      if j > 0 { assert parts[2 * (j - 1)] == items[j - 1].gap && parts[2 * (j - 1) + 1] == items[j - 1].field; }
    }
  }

  lemma {:induction false} RenderedParts(items: seq<Item>, tail: string)
    requires QuoteFree(items)
    ensures TakeTurns(items, Split(Render(items) + tail))
  {
    if items != [] {
      assert items[0] in items && QuoteFree(items[1..]);
      RenderedFirst(items, tail);
      RenderedParts(items[1..], tail);
      TurnsGrow(items[0], items[1..], Split(Render(items[1..]) + tail));
      assert [items[0]] + items[1..] == items;
    }
  }

  lemma RenderedFirst(items: seq<Item>, tail: string)
    requires items != [] && Q !in items[0].gap && Q !in items[0].field
    ensures Split(Render(items) + tail) == [items[0].gap, items[0].field] + Split(Render(items[1..]) + tail)
  {
    var i, later := items[0], Render(items[1..]) + tail;
    assert Render(items) + tail == i.gap + ([Q] + (i.field + ([Q] + later)));
    SplitPair(i.gap, i.field, later);
  }

  lemma {:induction false} FieldAt(items: seq<Item>, j: nat)
    requires j < |items|
    ensures |FieldsOf(items)| == |items| && FieldsOf(items)[j] == items[j].field
  {
    if j > 0 {
      FieldAt(items[1..], j - 1);
    } else if |items| > 1 {
      FieldAt(items[1..], 0);
    }
  }

  lemma QuotesCount(s: string)
    ensures QuoteCount(s) > 0 <==> Q in s
  {
    CutMeans(s, Q);
    if Q !in s { SplitNone(s); }
  }

  /** Part `m` of a line is the slot's, the text behind its last quote joined to the first gap, or the rest's. */
  lemma PartOfLine(slot: string, rest: string, m: nat)
    requires m < QuoteCount(slot) + |Split(rest)|
    ensures var parts, n := Split(slot + ([' '] + rest)), QuoteCount(slot);
            && m < |parts|
            && parts[m] == if m < n then Split(slot)[m]
                           else if m == n then Split(slot)[n] + ([' '] + Split(rest)[0])
                           else Split(rest)[m - n]
  {
    SplitOfSum(slot, [' '] + rest);
    SplitFirst([' '], rest);
  }

  /** What the second reader takes for field `k`: a part of the slot; what is between the slot's last quote and the first
      field; or, behind an odd number of quotes, the gap before a field, and behind an even one, an earlier field. */
  function TakenFor(slot: string, items: seq<Item>, k: nat): string
    requires 1 <= k <= |items|
  {
    var n := QuoteCount(slot);
    if 2 * k - 1 < n then Split(slot)[2 * k - 1]
    else if 2 * k - 1 == n then Split(slot)[n] + ([' '] + items[0].gap)
    else if n % 2 == 1 then items[(2 * k - 1 - n) / 2].gap
    else items[k - 1 - n / 2].field
  }

  lemma PartsTaken(slot: string, items: seq<Item>, parts: seq<string>, k: nat)
    requires Q in slot && 1 <= k <= |items| && TakeTurns(items, parts)
    ensures var n, m := QuoteCount(slot), 2 * k - 1;
            TakenFor(slot, items, k) == if m < n then Split(slot)[m]
                                        else if m == n then Split(slot)[n] + ([' '] + parts[0])
                                        else parts[m - n]
  {
    var n := QuoteCount(slot);
    QuotesCount(slot);
    assert parts[2 * 0] == items[0].gap;
    if 2 * k - 1 > n {
      var j := (2 * k - 1 - n) / 2;
      assert j < |items| && parts[2 * j] == items[j].gap && parts[2 * j + 1] == items[j].field;
    }
  }

  lemma SecondReaderTakes(slot: string, items: seq<Item>, tail: string, k: nat)
    requires Q in slot && QuoteFree(items) && 1 <= k <= |items|
    ensures var parts := Split(slot + ([' '] + (Render(items) + tail)));
            2 * k - 1 < |parts| && parts[2 * k - 1] == TakenFor(slot, items, k)
  {
    var rest := Render(items) + tail;
    RenderedParts(items, tail);
    PartsTaken(slot, items, Split(rest), k);
    PartOfLine(slot, rest, 2 * k - 1);
  }

  /** A line printed from a slot and any fields: one reader has the fields, the other what it takes for them. */
  lemma QuoteInSlotSeparatesReaders(slot: string, items: seq<Item>, tail: string, k: nat)
    requires ' ' !in slot && Q in slot && QuoteFree(items) && QuoteCount(tail) <= 1 && 1 <= k <= |items|
    ensures var line := slot + ([' '] + (Render(items) + tail));
            && Parse(line) == Some([slot] + FieldsOf(items)) && k < |Parse(line).value| && 2 * k - 1 < |Split(line)|
            && Parse(line).value[k] == items[k - 1].field && Split(line)[2 * k - 1] == TakenFor(slot, items, k)
  {
    RenderRoundTrip(slot, items, tail);
    FieldAt(items, k - 1);
    SecondReaderTakes(slot, items, tail, k);
  }

  /** As lspci prints: a space begins every gap behind the first field, and no field. */
  predicate Spaced(items: seq<Item>) {
    && (forall j | 1 <= j < |items| :: items[j].gap != "" && items[j].gap[0] == ' ')
    && (forall j | 0 <= j < |items| :: items[j].field == "" || items[j].field[0] != ' ')
  }

  lemma TakenWrong(slot: string, items: seq<Item>, k: nat)
    requires Q in slot && Spaced(items) && 1 <= k <= |items| && 2 * k - 1 > QuoteCount(slot)
    ensures TakenFor(slot, items, k) == items[k - 1].field <==>
              QuoteCount(slot) % 2 == 0 && items[k - 1 - QuoteCount(slot) / 2].field == items[k - 1].field
  {
    var n := QuoteCount(slot);
    QuotesCount(slot);
    if n % 2 == 1 {
      var j := (2 * k - 1 - n) / 2;
      assert 1 <= j < |items| && items[j].gap[0] == ' ';
    }
  }

  /** So on such a line, behind an odd number of quotes in the slot the second reader has none of the fields right, and
      behind an even one it has field `k` right exactly when the one it takes for it says the same. */
  lemma FieldsReadWrong(slot: string, items: seq<Item>, tail: string, k: nat)
    requires ' ' !in slot && Q in slot && QuoteFree(items) && Spaced(items) && QuoteCount(tail) <= 1
    requires 1 <= k <= |items| && 2 * k - 1 > QuoteCount(slot)
    ensures var line := slot + ([' '] + (Render(items) + tail));
            && Parse(line).Some? && k < |Parse(line).value| && 2 * k - 1 < |Split(line)|
            && (Split(line)[2 * k - 1] == Parse(line).value[k] <==>
                  QuoteCount(slot) % 2 == 0 && items[k - 1 - QuoteCount(slot) / 2].field == items[k - 1].field)
  {
    QuoteInSlotSeparatesReaders(slot, items, tail, k);
    TakenWrong(slot, items, k);
  }

  /** And every text is printed from the fields that are read from it. */
  lemma {:induction false} EveryRestIsRendered(rest: string) returns (items: seq<Item>, tail: string)
    ensures QuoteFree(items) && QuoteCount(tail) <= 1
    ensures rest == Render(items) + tail && FieldsOf(items) == QuotedFields(rest)
    decreases |rest|
  {
    items, tail := [], rest;
    FieldsNone(rest);
    CutMeans(rest, Q);
    match CutAt(rest, Q) {
      case Whole =>
      case At(gap, later) =>
        CutMeans(later, Q);
        match CutAt(later, Q) {
          case Whole =>
          case At(field, behind) =>
            var more, end := EveryRestIsRendered(behind);
            RenderMore(Item(gap, field), more, end);
            items, tail := [Item(gap, field)] + more, end;
        }
    }
  }

  lemma RenderMore(i: Item, items: seq<Item>, tail: string)
    requires QuoteFree(items) && Q !in i.gap && Q !in i.field
    ensures QuoteFree([i] + items) && FieldsOf([i] + items) == [i.field] + FieldsOf(items)
    ensures Render([i] + items) + tail == i.gap + ([Q] + (i.field + ([Q] + (Render(items) + tail))))
  {
    assert ([i] + items)[1..] == items;
  }
}
