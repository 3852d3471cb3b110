/** The offer document and the upload helper (lib/helpers.js): the
    selected observations' bill lines flattened into one table with their
    totals, cut into slides of at most seven rows with the grand total on
    the last slide only, the date stamp "DD.MM.YYYY", and the decoding of a
    `data:` URL into a content type and a byte buffer. */
module OfferReport {
  import opened Wrappers
  import opened TimeOfDay
  import opened Invoice
  import opened Slicing

  /** One row of the offer table. The item id is not carried over. */
  datatype OfferLine = OfferLine(name: string, quantity: Option<real>, unit: string,
                                 unitCost: Option<real>, totalCost: real)

  function OfferLineOf(m: Line): (r: OfferLine)
    ensures r.name == m.name && r.quantity == m.quantity && r.unit == m.unit && r.unitCost == m.unitCost
    ensures r.totalCost == LineCost(m)
  {
    OfferLine(m.name, m.quantity, m.unit, m.unitCost, OrZero(m.quantity) * OrZero(m.unitCost))
  }

  function OfferLines(lines: seq<Line>): (r: seq<OfferLine>)
    ensures |r| == |lines|
    ensures forall j :: 0 <= j < |r| ==> r[j] == OfferLineOf(lines[j])
  {
    seq(|lines|, j requires 0 <= j < |lines| => OfferLineOf(lines[j]))
  }

  /** How many bill lines the observations hold together. */
  function LineCount(observations: seq<Observation>): nat {
    if observations == [] then 0
    else LineCount(observations[..|observations| - 1]) + |observations[|observations| - 1].billItems|
  }

  /** `allItems`: every observation's lines, observation after observation,
      each with its total recomputed. */
  function FlattenItems(observations: seq<Observation>): (r: seq<OfferLine>)
    ensures |r| == LineCount(observations)
    ensures forall k :: 0 <= k < |r| ==> r[k].totalCost == OrZero(r[k].quantity) * OrZero(r[k].unitCost)
  {
    if observations == [] then []
    else FlattenItems(observations[..|observations| - 1]) + OfferLines(observations[|observations| - 1].billItems)
  }

  /** Line `j` of observation `i` sits at position `LineCount` of the
      observations before it, plus `j`: order is kept. */
  lemma {:induction false} FlattenAt(observations: seq<Observation>, i: nat, j: nat)
    requires i < |observations| && j < |observations[i].billItems|
    ensures LineCount(observations[..i]) + j < |FlattenItems(observations)|
    ensures FlattenItems(observations)[LineCount(observations[..i]) + j] == OfferLineOf(observations[i].billItems[j])
  {
    var n := |observations| - 1;
    var init := observations[..n];
    if i == n {
      assert observations[..i] == init;
    } else {
      assert init[..i] == observations[..i];
      FlattenAt(init, i, j);
      LineCountPrefix(observations, i);
    }
  }

  lemma {:induction false} LineCountPrefix(observations: seq<Observation>, i: nat)
    requires i < |observations|
    ensures LineCount(observations[..i]) + |observations[i].billItems| <= LineCount(observations)
  {
    var n := |observations| - 1;
    if i < n {
      assert observations[..n][..i] == observations[..i];
      LineCountPrefix(observations[..n], i);
    } else {
      assert observations[..i] == observations[..n];
    }
  }

  /** The `reduce` of the table's totals. */
  function GrandTotal(rows: seq<OfferLine>): (t: real)
    ensures (forall i :: 0 <= i < |rows| ==> rows[i].totalCost >= 0.0) ==> t >= 0.0
  {
    if rows == [] then 0.0 else GrandTotal(rows[..|rows| - 1]) + rows[|rows| - 1].totalCost
  }

  lemma {:induction false} GrandTotalAppend(a: seq<OfferLine>, b: seq<OfferLine>)
    ensures GrandTotal(a + b) == GrandTotal(a) + GrandTotal(b)
  {
    if b == [] {
      assert a + b == a;
    } else {
      assert (a + b)[..|a + b| - 1] == a + b[..|b| - 1];
      GrandTotalAppend(a, b[..|b| - 1]);
    }
  }

  lemma {:induction false} OfferLinesTotal(lines: seq<Line>)
    ensures GrandTotal(OfferLines(lines)) == SumCosts(lines)
  {
    if lines != [] {
      var n := |lines| - 1;
      assert OfferLines(lines)[..n] == OfferLines(lines[..n]);
      OfferLinesTotal(lines[..n]);
    }
  }

  /** The offer's `grandTotal` of one bill and the gallery's
      `computedTotal` of the same bill agree: both folds over `totalCost`
      add up the recomputed costs. */
  lemma OfferTotalIsComputedTotal(lines: seq<Line>)
    ensures GrandTotal(OfferLines(lines)) == ComputedTotal(lines)
  {
    OfferLinesTotal(lines);
  }

  /** The observations' costs, each from quantity and unit cost. */
  function ObservationsCost(observations: seq<Observation>): real {
    if observations == [] then 0.0
    else ObservationsCost(observations[..|observations| - 1]) + SumCosts(observations[|observations| - 1].billItems)
  }

  /** The offer's grand total is the sum of the observations' bills as the
      gallery's pop-up computes them. */
  lemma {:induction false} GrandTotalOfObservations(observations: seq<Observation>)
    ensures GrandTotal(FlattenItems(observations)) == ObservationsCost(observations)
  {
    if observations != [] {
      var n := |observations| - 1;
      GrandTotalOfObservations(observations[..n]);
      GrandTotalAppend(FlattenItems(observations[..n]), OfferLines(observations[n].billItems));
      OfferLinesTotal(observations[n].billItems);
    }
  }

  /** A slide of the offer: its table rows, and the grand total when it is
      the slide that carries the total and the signature. */
  datatype Slide = Slide(rows: seq<OfferLine>, total: Option<real>)

  /** The table rows of each slide. */
  function SlideRows(slides: seq<Slide>): (rows: seq<seq<OfferLine>>)
    ensures |rows| == |slides| && forall i :: 0 <= i < |slides| ==> rows[i] == slides[i].rows
  {
    seq(|slides|, i requires 0 <= i < |slides| => slides[i].rows)
  }

  /** The slide loop: `offset` runs 0, 7, 14, ... below the row count; each
      slide gets `allItems.slice(offset, offset + 7)`, and the test
      `offset + 7 >= allItems.length` puts the total on the last slide
      alone. */
  method BuildSlides(allItems: seq<OfferLine>, grandTotal: real) returns (slides: seq<Slide>)
    ensures IsSlicing(allItems, SlideRows(slides))
    ensures forall i :: 0 <= i < |slides| ==> (slides[i].total.Some? <==> i == |slides| - 1)
    ensures forall i :: 0 <= i < |slides| && slides[i].total.Some? ==> slides[i].total.value == grandTotal
  {
    var chunkSize := 7;
    slides := [];
    var offset := 0;
    while offset < |allItems|
      invariant offset == 7 * |slides| && |slides| <= SliceCount(|allItems|)
      invariant offset >= |allItems| ==> |slides| == SliceCount(|allItems|)
      invariant forall i :: 0 <= i < |slides| ==>
                  7 * i < |allItems| && slides[i].rows == allItems[7 * i..SliceEnd(|allItems|, i)]
      invariant forall i :: 0 <= i < |slides| ==> (slides[i].total.Some? <==> i == SliceCount(|allItems|) - 1)
      invariant forall i :: 0 <= i < |slides| && slides[i].total.Some? ==> slides[i].total.value == grandTotal
    {
      var end := if offset + chunkSize <= |allItems| then offset + chunkSize else |allItems|;
      var chunk := allItems[offset..end];
      LastSliceTest(|allItems|, |slides|);
      var isLast := offset + chunkSize >= |allItems|;
      slides := slides + [Slide(chunk, if isLast then Some(grandTotal) else None)];
      offset := offset + chunkSize;
    }
  }

  /** The slides' tables hold every row once, in order, at most seven to a
      slide, and exactly one slide, the last, shows the grand total. */
  lemma {:induction false} SlidesShowEveryRowOnce(allItems: seq<OfferLine>, slides: seq<Slide>, grandTotal: real)
    requires IsSlicing(allItems, SlideRows(slides))
    requires forall i :: 0 <= i < |slides| ==> (slides[i].total.Some? <==> i == |slides| - 1)
    ensures Concat(SlideRows(slides)) == allItems
    ensures forall i :: 0 <= i < |slides| ==> 0 < |slides[i].rows| <= 7
    ensures allItems == [] <==> slides == []
    ensures allItems != [] ==> |set i | 0 <= i < |slides| && slides[i].total.Some?| == 1
  {
    SlicingProperties(allItems, SlideRows(slides));
    if allItems != [] {
      assert (set i | 0 <= i < |slides| && slides[i].total.Some?) == {|slides| - 1};
    }
  }

  /** `gen_rep_pptx` without its rendering: the observations' lines
      flattened, their grand total, the slides and the date stamp. The
      slides cut the whole table into runs of seven, and the one slide that
      shows a total shows the observations' bill costs added up. */
  method GenerateOffer(observations: seq<Observation>, day: nat, monthIndex: nat, year: nat)
    returns (today: string, slides: seq<Slide>)
    requires 1 <= day <= 31 && monthIndex < 12
    ensures today == OfferDate(day, monthIndex, year)
    ensures IsSlicing(FlattenItems(observations), SlideRows(slides))
    ensures LineCount(observations) == 0 <==> slides == []
    ensures forall i :: 0 <= i < |slides| ==> (slides[i].total.Some? <==> i == |slides| - 1)
    ensures forall i :: 0 <= i < |slides| && slides[i].total.Some? ==>
              slides[i].total.value == ObservationsCost(observations)
  {
    today := OfferDate(day, monthIndex, year);
    var allItems := FlattenItems(observations);
    var grandTotal := GrandTotal(allItems);
    GrandTotalOfObservations(observations);
    slides := BuildSlides(allItems, grandTotal);
    SlidesShowEveryRowOnce(allItems, slides, grandTotal);
  }

  /** `String(n)`: the decimal digits of `n`. */
  function DecimalString(n: nat): (s: string)
    ensures |s| >= 1 && forall i :: 0 <= i < |s| ==> IsDigit(s[i])
    ensures n < 10 <==> |s| == 1
    ensures n < 100 ==> |s| <= 2
    ensures n > 0 ==> s[0] != '0'
  {
    if n < 10 then [DigitChar(n)] else DecimalString(n / 10) + [DigitChar(n % 10)]
  }

  /** The number a string of decimal digits denotes. */
  function DecimalValue(s: string): nat
    requires forall i :: 0 <= i < |s| ==> IsDigit(s[i])
  {
    if s == [] then 0 else 10 * DecimalValue(s[..|s| - 1]) + DigitValue(s[|s| - 1])
  }

  lemma {:induction false} DecimalRoundTrip(n: nat)
    ensures DecimalValue(DecimalString(n)) == n
  {
    if n >= 10 {
      var s := DecimalString(n);
      assert s[..|s| - 1] == DecimalString(n / 10);
      DecimalRoundTrip(n / 10);
    }
  }

  /** Leading zeros do not change a number. */
  lemma {:induction false} LeadingZero(s: string)
    requires forall i :: 0 <= i < |s| ==> IsDigit(s[i])
    ensures DecimalValue("0" + s) == DecimalValue(s)
  {
    if s != [] {
      assert ("0" + s)[..|"0" + s| - 1] == "0" + s[..|s| - 1];
      LeadingZero(s[..|s| - 1]);
    }
  }

  /** `padStart(len, fill)`: `fill` repeated in front up to length `len`. */
  function PadStart(s: string, len: nat, fill: char): (r: string)
    ensures |r| == if |s| >= len then |s| else len
    ensures r[|r| - |s|..] == s
    ensures forall i :: 0 <= i < |r| - |s| ==> r[i] == fill
    decreases len - |s|
  {
    if |s| >= len then s else PadStart([fill] + s, len, fill)
  }

  /** `String(n).padStart(2, "0")`. */
  function TwoDigitField(n: nat): (r: string)
    requires n < 100
    ensures |r| == 2 && IsDigit(r[0]) && IsDigit(r[1])
    ensures DecimalValue(r) == n
  {
    var s := DecimalString(n);
    var r := PadStart(s, 2, '0');
    DecimalRoundTrip(n);
    assert |s| == 1 ==> r == "0" + s;
    assert |s| == 1 ==> DecimalValue(r) == n by {
      if |s| == 1 {
        LeadingZero(s);
      }
    }
    r
  }

  /** Three digit fields joined by dots can be read back field by field. */
  lemma JoinFields(dd: string, mm: string, yyyy: string)
    requires |dd| == 2 && |mm| == 2
    ensures var r := dd + "." + mm + "." + yyyy;
            |r| == 6 + |yyyy| && r[..2] == dd && r[2] == '.' && r[3..5] == mm && r[5] == '.' && r[6..] == yyyy
  {
    var r := dd + "." + mm + "." + yyyy;
    assert r == (dd + "." + mm + ".") + yyyy;
    assert |dd + "." + mm + "."| == 6;
  }

  /** Outside the two dots, the joined fields hold only digits. */
  lemma JoinedDigits(dd: string, mm: string, yyyy: string)
    requires |dd| == 2 && |mm| == 2
    requires IsDigit(dd[0]) && IsDigit(dd[1]) && IsDigit(mm[0]) && IsDigit(mm[1])
    requires forall i :: 0 <= i < |yyyy| ==> IsDigit(yyyy[i])
    ensures var r := dd + "." + mm + "." + yyyy;
            forall i :: 0 <= i < |r| && i != 2 && i != 5 ==> IsDigit(r[i])
  {
    var r := dd + "." + mm + "." + yyyy;
    forall i | 0 <= i < |r| && i != 2 && i != 5 ensures IsDigit(r[i]) {
      if i < 2 { assert r[i] == dd[i] && (i == 0 || i == 1); }
      else if i < 5 { assert r[i] == mm[i - 3]; }
      else { assert r[i] == yyyy[i - 6]; }
    }
  }

  /** The offer's date stamp `${dd}.${mm}.${yyyy}` for day of month `day`,
      zero-based month `monthIndex` (as `getMonth()` gives it) and `year`:
      two-digit day, two-digit one-based month, and the year's digits. */
  function OfferDate(day: nat, monthIndex: nat, year: nat): (r: string)
    requires 1 <= day <= 31 && monthIndex < 12
    ensures |r| >= 7 && r[2] == '.' && r[5] == '.'
    ensures forall i :: 0 <= i < |r| && i != 2 && i != 5 ==> IsDigit(r[i])
    ensures DecimalValue(r[..2]) == day
    ensures DecimalValue(r[3..5]) == monthIndex + 1
    ensures DecimalValue(r[6..]) == year
    ensures r[6..] == DecimalString(year)
  {
    var dd := TwoDigitField(day);
    var mm := TwoDigitField(monthIndex + 1);
    var yyyy := DecimalString(year);
    DecimalRoundTrip(year);
    JoinFields(dd, mm, yyyy);
    JoinedDigits(dd, mm, yyyy);
    dd + "." + mm + "." + yyyy
  }

  /** The characters JavaScript's `.` does not match. */
  predicate IsLineTerminator(c: char) {
    c == '\n' || c == '\r' || c == '\U{2028}' || c == '\U{2029}'
  }

  predicate HasAt(s: string, i: int, p: string) {
    0 <= i && i + |p| <= |s| && s[i..i + |p|] == p
  }

  /** `/data:(.*?);base64/` matching `h[i..j + 7]`, the group being `h[i + 5..j]`. */
  predicate MatchesAt(h: string, i: int, j: int) {
    HasAt(h, i, "data:") && i + 5 <= j && HasAt(h, j, ";base64") &&
    forall k :: i + 5 <= k < j ==> !IsLineTerminator(h[k])
  }

  /** The lazy group's end: the first `;base64` at or after `j`, provided
      no line terminator comes before it, counting from `from`. */
  function LazyEnd(h: string, from: nat, j: nat): (r: Option<nat>)
    requires from <= j <= |h|
    requires forall k :: from <= k < j ==> !IsLineTerminator(h[k]) && !HasAt(h, k, ";base64")
    ensures r.Some? ==> j <= r.value && HasAt(h, r.value, ";base64") &&
                        forall k :: from <= k < r.value ==> !IsLineTerminator(h[k]) && !HasAt(h, k, ";base64")
    ensures r.None? ==> forall e :: from <= e && HasAt(h, e, ";base64") ==>
                                    exists k :: from <= k < e && IsLineTerminator(h[k])
    decreases |h| - j
  {
    if HasAt(h, j, ";base64") then Some(j)
    else if j + 7 > |h| then
      assert forall e :: j <= e ==> !HasAt(h, e, ";base64");
      None
    else if IsLineTerminator(h[j]) then None
    else LazyEnd(h, from, j + 1)
  }

  /** The leftmost match at or after `i`, with its lazy end. */
  function MatchFrom(h: string, i: nat): (r: Option<(nat, nat)>)
    requires i <= |h|
    ensures r.Some? ==> i <= r.value.0 && MatchesAt(h, r.value.0, r.value.1) &&
                        (forall j :: r.value.0 + 5 <= j < r.value.1 ==> !MatchesAt(h, r.value.0, j)) &&
                        forall a, b :: i <= a < r.value.0 ==> !MatchesAt(h, a, b)
    ensures r.None? ==> forall a, b :: i <= a ==> !MatchesAt(h, a, b)
    decreases |h| - i
  {
    if i + 5 > |h| then None
    else if HasAt(h, i, "data:") && LazyEnd(h, i + 5, i + 5).Some? then
      Some((i, LazyEnd(h, i + 5, i + 5).value))
    else
      MatchFrom(h, i + 1)
  }

  const DefaultContentType: string := "application/octet-stream"

  /** The content type named in a data URL's header: the text between the
      leftmost `data:` and the first `;base64` after it, or
      `application/octet-stream` when the header has no such part. */
  function ContentType(header: string): (ct: string)
    ensures (forall a, b :: !MatchesAt(header, a, b)) ==> ct == DefaultContentType
    ensures (exists a, b :: MatchesAt(header, a, b)) ==>
              exists a, b :: MatchesAt(header, a, b) && ct == header[a + 5..b] &&
                             (forall a' , b' :: 0 <= a' < a ==> !MatchesAt(header, a', b')) &&
                             (forall b' :: b' < b ==> !MatchesAt(header, a, b'))
  {
    match MatchFrom(header, 0)
    case Some((a, b)) => header[a + 5..b]
    case None => DefaultContentType
  }

  /** The index of the first `c` in `s`. */
  function IndexOf(s: string, c: char, from: nat): (r: Option<nat>)
    requires from <= |s|
    ensures r.Some? ==> from <= r.value < |s| && s[r.value] == c &&
                        forall k :: from <= k < r.value ==> s[k] != c
    ensures r.None? ==> forall k :: from <= k < |s| ==> s[k] != c
    decreases |s| - from
  {
    if from == |s| then None
    else if s[from] == c then Some(from)
    else IndexOf(s, c, from + 1)
  }

  /** `const [header, base64] = dataUrl.split(",")`: the text before the
      first comma, and the text from there to the next comma or the end;
      with no comma the second part is `undefined`, which `atob` reads as
      the string "undefined". */
  function SplitDataUrl(dataUrl: string): (parts: (string, string))
    ensures ',' !in parts.0
    ensures ',' !in parts.1
    ensures ',' in dataUrl ==> |parts.0| + 1 + |parts.1| <= |dataUrl| &&
                               dataUrl[..|parts.0| + 1 + |parts.1|] == parts.0 + "," + parts.1
    ensures ',' in dataUrl ==> |parts.0| + 1 + |parts.1| == |dataUrl| || dataUrl[|parts.0| + 1 + |parts.1|] == ','
    ensures ',' !in dataUrl ==> parts == (dataUrl, "undefined")
  {
    match IndexOf(dataUrl, ',', 0)
    case None => (dataUrl, "undefined")
    case Some(i) =>
      var rest := match IndexOf(dataUrl, ',', i + 1)
                  case Some(j) => dataUrl[i + 1..j]
                  case None => dataUrl[i + 1..];
      assert dataUrl[..i + 1 + |rest|] == dataUrl[..i] + "," + rest;
      (dataUrl[..i], rest)
  }

  /** `Uint8Array` stores a character code modulo 256. */
  function ToUint8(c: char): bv8 {
    (c as int % 256) as bv8
  }

  /** The copy loop: one byte per character of the decoded string. */
  method CopyCharCodes(raw: string) returns (buf: array<bv8>)
    ensures fresh(buf)
    ensures buf.Length == |raw|
    ensures forall i :: 0 <= i < |raw| ==> buf[i] == ToUint8(raw[i])
  {
    var len := |raw|;
    buf := new bv8[len];
    for i := 0 to len
      invariant forall k :: 0 <= k < i ==> buf[k] == ToUint8(raw[k])
    {
      buf[i] := ToUint8(raw[i]);
    }
  }

  /** A blob: its bytes and content type. */
  datatype Blob = Blob(bytes: array<bv8>, contentType: string)

  /** `dataUrlToBlob`, with the browser's `atob` given (None where it throws
      on input that is not base64). */
  method DataUrlToBlob(dataUrl: string, atob: string -> Option<string>) returns (r: Option<Blob>)
    ensures r.None? <==> atob(SplitDataUrl(dataUrl).1).None?
    ensures r.Some? ==> var raw := atob(SplitDataUrl(dataUrl).1).value;
                        && fresh(r.value.bytes)
                        && r.value.contentType == ContentType(SplitDataUrl(dataUrl).0)
                        && r.value.bytes.Length == |raw|
                        && forall i :: 0 <= i < |raw| ==> r.value.bytes[i] == ToUint8(raw[i])
  {
    var (header, base64) := SplitDataUrl(dataUrl);
    var contentType := ContentType(header);
    var decoded := atob(base64);
    if decoded.None? {
      return None;
    }
    var buf := CopyCharCodes(decoded.value);
    r := Some(Blob(buf, contentType));
  }
}
