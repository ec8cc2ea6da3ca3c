/** The Windows icon writer (agent/scripts/generate_windows_ico.py): PNG files, sorted by area, behind a directory
    of their sizes and offsets. */
module IcoFile {

  import opened Bytes
  import opened Options

  const SIGNATURE: bytes := [0x89, 0x50, 0x4E, 0x47, 0x0D, 0x0A, 0x1A, 0x0A]
  const HEADER_LEN := 6
  const ENTRY_LEN := 16

  datatype Error = NotPng | TooShort | StructError

  datatype Result<T> = Ok(value: T) | Err(error: Error)

  datatype Image = Image(width: nat, height: nat, data: bytes)

  // ---------------------------------------------------------------- sizes

  /** Width and height from IHDR, the first chunk (section 11.2.2 of the PNG specification). */
  function PngSize(data: bytes): Result<(nat, nat)> {
    if !(SIGNATURE <= data) then Err(NotPng)
    else if |data| < 24 then Err(TooShort)
    else Ok((ReadBe32(data, 16), ReadBe32(data, 20)))
  }

  /** The chunk's length and type, and the two sizes, behind the signature. */
  lemma PngSizeReadsIhdr(head: bytes, width: nat, height: nat, rest: bytes)
    requires |head| == 8 && width < 0x1_0000_0000 && height < 0x1_0000_0000
    ensures PngSize(SIGNATURE + head + Be32(width) + Be32(height) + rest) == Ok((width, height))
  {
    var data := SIGNATURE + head + Be32(width) + Be32(height) + rest;
    assert data[16..20] == Be32(width) && data[20..24] == Be32(height);
    Be32RoundTrip(data, 16, width);
    Be32RoundTrip(data, 20, height);
  }

  /** What is not one is told from a PNG by its first eight bytes, and a PNG without sizes by its length. */
  lemma PngSizeRefuses(data: bytes)
    ensures PngSize(data) == Err(NotPng) <==> |data| < 8 || data[..8] != [137, 80, 78, 71, 13, 10, 26, 10]
    ensures PngSize(data) == Err(TooShort) <==> 8 <= |data| < 24 && data[..8] == [137, 80, 78, 71, 13, 10, 26, 10]
  {
    assert SIGNATURE == [137, 80, 78, 71, 13, 10, 26, 10] && |SIGNATURE| == 8;
    assert SIGNATURE <= data <==> |data| >= 8 && data[..8] == SIGNATURE;
  }

  function IconDimByte(v: nat): byte {
    if v >= 256 then 0 else v
  }

  /** What a reader of the directory makes of the byte: 0 stands for 256. */
  function ShownDim(b: byte): nat {
    if b == 0 then 256 else b
  }

  /** A size survives the byte exactly when it is 1 to 256. */
  lemma DimSurvives(v: nat)
    ensures ShownDim(IconDimByte(v)) == v <==> 1 <= v <= 256
  {
  }

  // ---------------------------------------------------------------- sorting

  function Area(i: Image): nat { i.width * i.height }

  predicate ByArea(s: seq<Image>) {
    forall i, j | 0 <= i < j < |s| :: Area(s[i]) <= Area(s[j])
  }

  /** The images of one area, in order. */
  function OfArea(s: seq<Image>, a: nat): seq<Image> {
    if s == [] then [] else (if Area(s[0]) == a then [s[0]] else []) + OfArea(s[1..], a)
  }

  ghost predicate SameByArea(s: seq<Image>, t: seq<Image>) {
    forall a :: OfArea(s, a) == OfArea(t, a)
  }

  /** Sorted by area, the images of each area as and in the order they were. */
  ghost predicate StablySorted(s: seq<Image>, t: seq<Image>) {
    ByArea(t) && SameByArea(s, t)
  }

  lemma {:induction false} OfAreaHas(s: seq<Image>, a: nat)
    ensures OfArea(s, a) != [] <==> exists k :: 0 <= k < |s| && Area(s[k]) == a
  {
    if s != [] {
      OfAreaHas(s[1..], a);
      if OfArea(s[1..], a) != [] {
        var k :| 0 <= k < |s[1..]| && Area(s[1..][k]) == a;
        assert Area(s[k + 1]) == a;
      }
      if exists k :: 0 < k < |s| && Area(s[k]) == a {
        var k :| 0 < k < |s| && Area(s[k]) == a;
        assert Area(s[1..][k - 1]) == a;
      }
    }
  }

  lemma HeadsAgree(t: seq<Image>, u: seq<Image>)
    requires ByArea(t) && ByArea(u) && SameByArea(t, u) && t != []
    ensures u != [] && t[0] == u[0]
  {
    OfAreaHas(t, Area(t[0]));
    assert OfArea(u, Area(t[0])) == OfArea(t, Area(t[0]));
    OfAreaHas(u, Area(t[0]));
    OfAreaHas(u, Area(u[0]));
    assert OfArea(t, Area(u[0])) == OfArea(u, Area(u[0]));
    OfAreaHas(t, Area(u[0]));
    assert OfArea(t, Area(t[0]))[0] == t[0] && OfArea(u, Area(u[0]))[0] == u[0];
  }

  lemma TailsAgree(t: seq<Image>, u: seq<Image>)
    requires SameByArea(t, u) && t != [] && u != [] && t[0] == u[0]
    ensures SameByArea(t[1..], u[1..])
  {
    forall a ensures OfArea(t[1..], a) == OfArea(u[1..], a) {
      assert OfArea(t, a) == OfArea(u, a);
      var head := if Area(t[0]) == a then [t[0]] else [];
      assert OfArea(t[1..], a) == OfArea(t, a)[|head|..];
      assert OfArea(u[1..], a) == OfArea(u, a)[|head|..];
    }
  }

  /** There is one stable sorting, so it does not matter how the library finds it. */
  lemma {:induction false} StableSortIsUnique(t: seq<Image>, u: seq<Image>)
    requires ByArea(t) && ByArea(u) && SameByArea(t, u)
    ensures t == u
    decreases |t| + |u|
  {
    if t == [] && u == [] {
    } else if t != [] {
      HeadsAgree(t, u);
      TailsAgree(t, u);
      StableSortIsUnique(t[1..], u[1..]);
      assert t == [t[0]] + t[1..] && u == [u[0]] + u[1..];
    } else {
      HeadsAgree(u, t);
    }
  }

  lemma {:induction false} OfAreaOfSum(s: seq<Image>, t: seq<Image>, a: nat)
    ensures OfArea(s + t, a) == OfArea(s, a) + OfArea(t, a)
  {
    if s == [] {
      assert s + t == t;
    } else {
      var head := if Area(s[0]) == a then [s[0]] else [];
      assert (s + t)[1..] == s[1..] + t && (s + t)[0] == s[0];
      OfAreaOfSum(s[1..], t, a);
      SumAgrees(head, OfArea(s[1..], a), OfArea(t, a));
    }
  }

  lemma SumAgrees<T>(a: seq<T>, b: seq<T>, c: seq<T>)
    ensures a + (b + c) == (a + b) + c
  {
  }

  lemma {:induction false} OfAreaCounts(s: seq<Image>, i: Image)
    ensures multiset(s)[i] == multiset(OfArea(s, Area(i)))[i]
  {
    if s != [] {
      OfAreaCounts(s[1..], i);
      assert s == [s[0]] + s[1..];
    }
  }

  /** A stable sorting has the images it started from. */
  lemma StableSortIsPermutation(s: seq<Image>, t: seq<Image>)
    requires SameByArea(s, t)
    ensures multiset(s) == multiset(t)
  {
    forall i ensures multiset(s)[i] == multiset(t)[i] {
      OfAreaCounts(s, i);
      OfAreaCounts(t, i);
      assert OfArea(s, Area(i)) == OfArea(t, Area(i));
    }
  }

  lemma {:induction false} NoneOfArea(s: seq<Image>, a: nat)
    requires forall k | 0 <= k < |s| :: Area(s[k]) != a
    ensures OfArea(s, a) == []
  {
    OfAreaHas(s, a);
  }

  /** Behind what is no larger and before what is larger, an image keeps its place in its area. */
  lemma InsertKeepsAreas(before: seq<Image>, after: seq<Image>, i: Image)
    requires forall k | 0 <= k < |after| :: Area(after[k]) > Area(i)
    ensures SameByArea(before + after + [i], before + [i] + after)
  {
    forall a ensures OfArea(before + after + [i], a) == OfArea(before + [i] + after, a) {
      OfAreaOfSum(before + after, [i], a);
      OfAreaOfSum(before, after, a);
      OfAreaOfSum(before + [i], after, a);
      OfAreaOfSum(before, [i], a);
      if a == Area(i) { NoneOfArea(after, a); }
    }
  }

  /** list.sort by area, as an insertion sort: the one stable sorting. */
  method SortByArea(images: seq<Image>) returns (t: seq<Image>)
    ensures StablySorted(images, t)
    ensures forall i, j | 0 <= i < j < |t| :: t[i].width * t[i].height <= t[j].width * t[j].height
  {
    t := [];
    for n := 0 to |images|
      invariant StablySorted(images[..n], t)
    {
      var i, k := images[n], |t|;
      while k > 0 && Area(t[k - 1]) > Area(i)
        invariant 0 <= k <= |t|
        invariant forall j | k <= j < |t| :: Area(t[j]) > Area(i)
      {
        k := k - 1;
      }
      Inserted(images[..n], t, i, k);
      assert images[..n + 1] == images[..n] + [i];
      t := t[..k] + [i] + t[k..];
    }
    assert images[..|images|] == images;
  }

  lemma Inserted(s: seq<Image>, t: seq<Image>, i: Image, k: nat)
    requires StablySorted(s, t) && k <= |t|
    requires k > 0 ==> Area(t[k - 1]) <= Area(i)
    requires forall j | k <= j < |t| :: Area(t[j]) > Area(i)
    ensures StablySorted(s + [i], t[..k] + [i] + t[k..])
  {
    InsertedInOrder(t, i, k);
    InsertKeepsAreas(t[..k], t[k..], i);
    assert t[..k] + t[k..] == t;
    AppendKeepsAreas(s, t, i);
  }

  lemma InsertedInOrder(t: seq<Image>, i: Image, k: nat)
    requires ByArea(t) && k <= |t|
    requires k > 0 ==> Area(t[k - 1]) <= Area(i)
    requires forall j | k <= j < |t| :: Area(t[j]) > Area(i)
    ensures ByArea(t[..k] + [i] + t[k..])
  {
    var u := t[..k] + [i] + t[k..];
    assert forall j | 0 <= j < |u| :: u[j] == if j < k then t[j] else if j == k then i else t[j - 1];
  }

  lemma AppendKeepsAreas(s: seq<Image>, t: seq<Image>, i: Image)
    requires SameByArea(s, t)
    ensures SameByArea(s + [i], t + [i])
  {
    forall a ensures OfArea(s + [i], a) == OfArea(t + [i], a) {
      OfAreaOfSum(s, [i], a);
      OfAreaOfSum(t, [i], a);
    }
  }

  // ---------------------------------------------------------------- layout

  function Total(images: seq<Image>): nat {
    if images == [] then 0 else Total(images[..|images| - 1]) + |images[|images| - 1].data|
  }

  /** Where image `k` starts; one past the last, the file's length. */
  function Offset(images: seq<Image>, k: nat): nat
    requires k <= |images|
  {
    HEADER_LEN + ENTRY_LEN * |images| + Total(images[..k])
  }

  function Datas(images: seq<Image>): bytes {
    if images == [] then [] else Datas(images[..|images| - 1]) + images[|images| - 1].data
  }

  predicate EntryFits(i: Image, offset: nat) {
    |i.data| < 0x1_0000_0000 && offset < 0x1_0000_0000
  }

  function Entry(i: Image, offset: nat): (e: bytes)
    requires EntryFits(i, offset)
    ensures |e| == ENTRY_LEN
  {
    [IconDimByte(i.width), IconDimByte(i.height), 0, 0] + Le16(1) + Le16(32) + Le32(|i.data|) + Le32(offset)
  }

  /** What the fields of the first `n` entries can hold. */
  predicate FitsUpTo(images: seq<Image>, n: nat)
    requires n <= |images|
  {
    forall k | 0 <= k < n :: EntryFits(images[k], Offset(images, k))
  }

  predicate Fits(images: seq<Image>) {
    |images| < 0x10000 && FitsUpTo(images, |images|)
  }

  function Entries(images: seq<Image>, n: nat): (e: bytes)
    requires n <= |images| && FitsUpTo(images, n)
    ensures |e| == ENTRY_LEN * n
  {
    if n == 0 then [] else Entries(images, n - 1) + Entry(images[n - 1], Offset(images, n - 1))
  }

  function Header(n: nat): bytes
    requires n < 0x10000
  {
    Le16(0) + Le16(1) + Le16(n)
  }

  function File(images: seq<Image>): bytes
    requires Fits(images)
  {
    Header(|images|) + Entries(images, |images|) + Datas(images)
  }

  // ---------------------------------------------------------------- writing

  /** What the inputs are read as, up to the first that is no PNG. */
  function Load(inputs: seq<bytes>): Result<seq<Image>> {
    if inputs == [] then Ok([])
    else match Load(inputs[..|inputs| - 1])
      case Err(e) => Err(e)
      case Ok(images) =>
        var data := inputs[|inputs| - 1];
        match PngSize(data)
        case Err(e) => Err(e)
        case Ok(size) => Ok(images + [Image(size.0, size.1, data)])
  }

  /** Loading succeeds exactly when every input is a PNG with sizes, and gives each one's size and bytes, in order. */
  lemma {:induction false} LoadsAll(inputs: seq<bytes>)
    ensures Load(inputs).Ok? <==> forall data | data in inputs :: PngSize(data).Ok?
    ensures Load(inputs).Ok? ==>
              && |Load(inputs).value| == |inputs|
              && forall k | 0 <= k < |inputs| :: PngSize(inputs[k]).Ok?
                   && Load(inputs).value[k] == Image(PngSize(inputs[k]).value.0, PngSize(inputs[k]).value.1, inputs[k])
  {
    if inputs != [] {
      LoadsAll(inputs[..|inputs| - 1]);
      assert inputs == inputs[..|inputs| - 1] + [inputs[|inputs| - 1]];
    }
  }

  lemma {:induction false} LoadStops(inputs: seq<bytes>, n: nat)
    requires n <= |inputs| && Load(inputs[..n]).Err?
    ensures Load(inputs) == Load(inputs[..n])
  {
    if n < |inputs| {
      assert inputs[..|inputs| - 1][..n] == inputs[..n];
      LoadStops(inputs[..|inputs| - 1], n);
    } else {
      assert inputs[..n] == inputs;
    }
  }

  /** build_ico's first loop. */
  method LoadImages(inputs: seq<bytes>) returns (r: Result<seq<Image>>)
    ensures r == Load(inputs)
  {
    var images := [];
    for n := 0 to |inputs|
      invariant Load(inputs[..n]) == Ok(images)
    {
      var size := PngSize(inputs[n]);
      assert inputs[..n + 1][..n] == inputs[..n];
      if size.Err? {
        LoadStops(inputs, n + 1);
        return Err(size.error);
      }
      images := images + [Image(size.value.0, size.value.1, inputs[n])];
    }
    assert inputs[..|inputs|] == inputs;
    return Ok(images);
  }

  /** And its second: the entries, with the running offset. */
  method PackEntries(images: seq<Image>) returns (r: Result<bytes>)
    ensures r.Ok? <==> Fits(images)
    ensures r.Ok? ==> r.value == Header(|images|) + Entries(images, |images|)
    ensures r.Err? ==> r.error == StructError
  {
    if |images| >= 0x10000 { return Err(StructError); }
    var header := Header(|images|);
    var entries: bytes := [];
    var offset := HEADER_LEN + |images| * ENTRY_LEN;
    for n := 0 to |images|
      invariant offset == Offset(images, n)
      invariant FitsUpTo(images, n) && entries == Entries(images, n)
    {
      if !EntryFits(images[n], offset) { return Err(StructError); }
      entries := entries + Entry(images[n], offset);
      assert images[..n + 1][..n] == images[..n];
      offset := offset + |images[n].data|;
    }
    return Ok(header + entries);
  }

  method JoinDatas(images: seq<Image>) returns (out: bytes)
    ensures out == Datas(images)
  {
    out := [];
    for n := 0 to |images|
      invariant out == Datas(images[..n])
    {
      assert images[..n + 1][..n] == images[..n];
      out := out + images[n].data;
    }
    assert images[..|images|] == images;
  }

  /** build_ico: the file of the stably sorted images, or the first error, with nothing written. */
  method BuildIco(inputs: seq<bytes>) returns (r: Result<bytes>)
    ensures Load(inputs).Err? ==> r == Err(Load(inputs).error)
    ensures Load(inputs).Ok? ==>
              exists images :: StablySorted(Load(inputs).value, images)
                            && r == (if Fits(images) then Ok(File(images)) else Err(StructError))
  {
    var loaded := LoadImages(inputs);
    if loaded.Err? { return Err(loaded.error); }
    var images := SortByArea(loaded.value);
    var packed := PackEntries(images);
    if packed.Err? { return Err(packed.error); }
    var data := JoinDatas(images);
    return Ok(packed.value + data);
  }

  // ---------------------------------------------------------------- reading back

  /** An image as a reader finds it. */
  datatype Slot = Slot(width: nat, height: nat, data: bytes)

  function EntryStart(k: nat): nat { HEADER_LEN + ENTRY_LEN * k }

  /** The entry has no palette, one plane and 32 bits a pixel, and its region is inside the file. */
  predicate SlotSound(file: bytes, k: nat)
    requires EntryStart(k + 1) <= |file|
  {
    var at := EntryStart(k);
    && file[at + 2] == 0 && file[at + 3] == 0 && ReadLe16(file, at + 4) == 1 && ReadLe16(file, at + 6) == 32
    && ReadLe32(file, at + 12) + ReadLe32(file, at + 8) <= |file|
  }

  function ReadSlot(file: bytes, k: nat): Slot
    requires EntryStart(k + 1) <= |file| && SlotSound(file, k)
  {
    var at := EntryStart(k);
    var len, offset := ReadLe32(file, at + 8), ReadLe32(file, at + 12);
    Slot(ShownDim(file[at]), ShownDim(file[at + 1]), file[offset..offset + len])
  }

  function ReadSlots(file: bytes, n: nat): Option<seq<Slot>>
    requires EntryStart(n) <= |file|
  {
    if n == 0 then Some([])
    else match ReadSlots(file, n - 1)
      case None => None
      case Some(slots) => if SlotSound(file, n - 1) then Some(slots + [ReadSlot(file, n - 1)]) else None
  }

  /** A reader that follows the directory. */
  function ReadIco(file: bytes): Option<seq<Slot>> {
    if |file| < HEADER_LEN || ReadLe16(file, 0) != 0 || ReadLe16(file, 2) != 1 then None
    else if EntryStart(ReadLe16(file, 4)) > |file| then None
    else ReadSlots(file, ReadLe16(file, 4))
  }

  function Shown(i: Image): Slot {
    Slot(ShownDim(IconDimByte(i.width)), ShownDim(IconDimByte(i.height)), i.data)
  }

  function ShownAll(images: seq<Image>): seq<Slot> {
    if images == [] then [] else ShownAll(images[..|images| - 1]) + [Shown(images[|images| - 1])]
  }

  lemma {:induction false} TotalIsLength(images: seq<Image>)
    ensures |Datas(images)| == Total(images)
  {
    if images != [] { TotalIsLength(images[..|images| - 1]); }
  }

  lemma {:induction false} DataIsWhereTotalSays(images: seq<Image>, k: nat)
    requires k < |images|
    ensures Total(images[..k]) + |images[k].data| <= |Datas(images)|
    ensures Datas(images)[Total(images[..k])..Total(images[..k]) + |images[k].data|] == images[k].data
  {
    var before := images[..|images| - 1];
    TotalIsLength(before);
    if k < |images| - 1 {
      DataIsWhereTotalSays(before, k);
      assert before[..k] == images[..k];
    }
  }

  lemma {:induction false} EntryIsInPlace(images: seq<Image>, n: nat, k: nat)
    requires k < n <= |images| && FitsUpTo(images, n)
    ensures Entries(images, n)[ENTRY_LEN * k..ENTRY_LEN * (k + 1)] == Entry(images[k], Offset(images, k))
  {
    if k < n - 1 { EntryIsInPlace(images, n - 1, k); }
  }

  /** The regions lie one behind the other from the directory's end to the end of the file. */
  lemma RegionsFillTheFile(images: seq<Image>, k: nat)
    requires Fits(images) && k < |images|
    ensures Offset(images, 0) == EntryStart(|images|)
    ensures Offset(images, k + 1) == Offset(images, k) + |images[k].data|
    ensures Offset(images, |images|) == |File(images)|
  {
    TotalIsLength(images);
    assert images[..k + 1][..k] == images[..k];
    assert images[..|images|] == images;
  }

  lemma EntryInFile(images: seq<Image>, k: nat)
    requires Fits(images) && k < |images|
    ensures EntryStart(k + 1) <= EntryStart(|images|) <= |File(images)|
    ensures File(images)[EntryStart(k)..EntryStart(k + 1)] == Entry(images[k], Offset(images, k))
  {
    EntryIsInPlace(images, |images|, k);
    SliceOfMiddle(Header(|images|), Entries(images, |images|), Datas(images), ENTRY_LEN * k, ENTRY_LEN * (k + 1));
  }

  lemma DataInFile(images: seq<Image>, k: nat)
    requires Fits(images) && k < |images|
    ensures Offset(images, k) + |images[k].data| <= |File(images)|
    ensures File(images)[Offset(images, k)..Offset(images, k) + |images[k].data|] == images[k].data
  {
    var front, datas := Header(|images|) + Entries(images, |images|), Datas(images);
    DataIsWhereTotalSays(images, k);
    assert front + datas + [] == front + datas;
    SliceOfMiddle(front, datas, [], Total(images[..k]), Total(images[..k]) + |images[k].data|);
  }

  lemma EntryPlanes(file: bytes, at: nat, i: Image, offset: nat)
    requires EntryFits(i, offset) && at + ENTRY_LEN <= |file|
    requires file[at..at + ENTRY_LEN] == Entry(i, offset)
    ensures ReadLe16(file, at + 4) == 1 && ReadLe16(file, at + 6) == 32
  {
    var e := file[at..at + ENTRY_LEN];
    SliceOfSlice(file, at, ENTRY_LEN, 4, 6);
    SliceOfSlice(file, at, ENTRY_LEN, 6, 8);
    assert e[4..6] == Le16(1) && e[6..8] == Le16(32);
    Le16RoundTrip(file, at + 4, 1);
    Le16RoundTrip(file, at + 6, 32);
  }

  lemma EntryReads(file: bytes, at: nat, i: Image, offset: nat)
    requires EntryFits(i, offset) && at + ENTRY_LEN <= |file|
    requires file[at..at + ENTRY_LEN] == Entry(i, offset)
    ensures file[at] == IconDimByte(i.width) && file[at + 1] == IconDimByte(i.height)
    ensures file[at + 2] == 0 && file[at + 3] == 0 && ReadLe16(file, at + 4) == 1 && ReadLe16(file, at + 6) == 32
    ensures ReadLe32(file, at + 8) == |i.data| && ReadLe32(file, at + 12) == offset
  {
    var e := file[at..at + ENTRY_LEN];
    assert file[at] == e[0] && file[at + 1] == e[1] && file[at + 2] == e[2] && file[at + 3] == e[3];
    EntryPlanes(file, at, i, offset);
    SliceOfSlice(file, at, ENTRY_LEN, 8, 12);
    SliceOfSlice(file, at, ENTRY_LEN, 12, 16);
    assert e[8..12] == Le32(|i.data|) && e[12..16] == Le32(offset);
    Le32RoundTrip(file, at + 8, |i.data|);
    Le32RoundTrip(file, at + 12, offset);
  }

  lemma SlotReads(images: seq<Image>, k: nat)
    requires Fits(images) && k < |images|
    ensures var file := File(images);
            EntryStart(k + 1) <= |file| && SlotSound(file, k) && ReadSlot(file, k) == Shown(images[k])
  {
    EntryInFile(images, k);
    DataInFile(images, k);
    SlotIs(File(images), k, images[k], Offset(images, k));
  }

  lemma SlotIs(file: bytes, k: nat, i: Image, offset: nat)
    requires EntryFits(i, offset) && EntryStart(k + 1) <= |file|
    requires file[EntryStart(k)..EntryStart(k + 1)] == Entry(i, offset)
    requires offset + |i.data| <= |file| && file[offset..offset + |i.data|] == i.data
    ensures SlotSound(file, k) && ReadSlot(file, k) == Shown(i)
  {
    var at := EntryStart(k);
    assert EntryStart(k + 1) == at + ENTRY_LEN;
    EntryReads(file, at, i, offset);
    SlotFrom(file, k, at, i, offset);
  }

  lemma SlotFrom(file: bytes, k: nat, at: nat, i: Image, offset: nat)
    requires at == EntryStart(k) && EntryStart(k + 1) <= |file|
    requires file[at] == IconDimByte(i.width) && file[at + 1] == IconDimByte(i.height)
    requires file[at + 2] == 0 && file[at + 3] == 0 && ReadLe16(file, at + 4) == 1 && ReadLe16(file, at + 6) == 32
    requires ReadLe32(file, at + 8) == |i.data| && ReadLe32(file, at + 12) == offset
    requires offset + |i.data| <= |file| && file[offset..offset + |i.data|] == i.data
    ensures SlotSound(file, k) && ReadSlot(file, k) == Shown(i)
  {
  }

  lemma {:induction false} SlotsRead(images: seq<Image>, n: nat)
    requires Fits(images) && n <= |images|
    ensures EntryStart(n) <= |File(images)| && ReadSlots(File(images), n) == Some(ShownAll(images[..n]))
  {
    if n > 0 {
      SlotsRead(images, n - 1);
      SlotReads(images, n - 1);
      assert images[..n][..n - 1] == images[..n - 1];
    }
  }

  /** Read back through its directory, the file has the images it was made of, in order, with the sizes that a
      byte can show. */
  lemma FileReadsBack(images: seq<Image>)
    requires Fits(images)
    ensures ReadIco(File(images)) == Some(ShownAll(images))
  {
    var file := File(images);
    assert file[0..2] == Le16(0) && file[2..4] == Le16(1) && file[4..6] == Le16(|images|);
    Le16RoundTrip(file, 0, 0);
    Le16RoundTrip(file, 2, 1);
    Le16RoundTrip(file, 4, |images|);
    SlotsRead(images, |images|);
    assert images[..|images|] == images;
  }
}
