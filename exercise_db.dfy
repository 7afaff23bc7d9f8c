/** The exercise browser: a muscle group is chosen, its exercises are fetched
    from the ExerciseDB API, and the results are shown ten to a page with
    numbered page buttons. */
module ExerciseDb {

  import opened Js
  import JsText

  datatype Exercise = Exercise(id: string, name: string, gifUrl: string)

  /** `exercisesPerPage` */
  const PerPage: nat := 10

  const SearchFailed: string := "Failed to fetch exercises. Please try again."

  /** The index `Array.prototype.slice` uses for an argument `i` on a list of length `len`. */
  function SliceIndex(i: int, len: nat): (k: nat)
    ensures k <= len
  {
    if i < 0 then (if len + i < 0 then 0 else len + i) else if i > len then len else i
  }

  /** `s.slice(start, end)` */
  function Slice<T>(s: seq<T>, start: int, end: int): seq<T> {
    var from := SliceIndex(start, |s|);
    var to := SliceIndex(end, |s|);
    if to <= from then [] else s[from..to]
  }

  /** `currentExercises` for the page number `currentPage`. */
  function CurrentExercises(exercises: seq<Exercise>, currentPage: int): seq<Exercise> {
    var indexOfLastExercise := currentPage * PerPage;
    var indexOfFirstExercise := indexOfLastExercise - PerPage;
    Slice(exercises, indexOfFirstExercise, indexOfLastExercise)
  }

  /** `Math.ceil(exercises.length / exercisesPerPage)` */
  function PageCount(n: nat): (c: nat)
    ensures c * PerPage >= n && (c == 0 || (c - 1) * PerPage < n)
  {
    (n + PerPage - 1) / PerPage
  }

  /** A page button: its number and whether it carries the `active` class. */
  datatype PageButton = PageButton(number: int, active: bool)

  /** The pagination bar: shown only when there is more than one page's worth. */
  function PageButtons(n: nat, currentPage: int): (buttons: seq<PageButton>)
    ensures n <= PerPage ==> buttons == []
    ensures n > PerPage ==> |buttons| == PageCount(n) >= 2
    ensures forall i :: 0 <= i < |buttons| ==> buttons[i].number == i + 1
    ensures forall i :: 0 <= i < |buttons| ==> (buttons[i].active <==> currentPage == i + 1)
  {
    if n <= PerPage then []
    else seq(PageCount(n), (i: int) => PageButton(i + 1, currentPage == i + 1))
  }

  /** A page shows at most ten exercises; every numbered page shows at least
      one; a page past the last shows none. */
  lemma PageBounds(exercises: seq<Exercise>, page: int)
    requires page >= 1
    ensures |CurrentExercises(exercises, page)| <= PerPage
    ensures page <= PageCount(|exercises|) ==> |CurrentExercises(exercises, page)| >= 1
    ensures page > PageCount(|exercises|) ==> CurrentExercises(exercises, page) == []
  {
    var n := |exercises|;
    assert (page - 1) * PerPage >= 0;
    if page > PageCount(n) {
      assert (page - 1) * PerPage >= PageCount(n) * PerPage;
    }
  }

  /** The exercise at index `i` is shown on page `i / 10 + 1`, at position `i % 10`. */
  lemma ExerciseOnItsPage(exercises: seq<Exercise>, i: int)
    requires 0 <= i < |exercises|
    ensures 1 <= i / PerPage + 1 <= PageCount(|exercises|)
    ensures i % PerPage < |CurrentExercises(exercises, i / PerPage + 1)|
    ensures CurrentExercises(exercises, i / PerPage + 1)[i % PerPage] == exercises[i]
  {
    var p := i / PerPage + 1;
    assert (p - 1) * PerPage == i - i % PerPage;
    assert p * PerPage == i - i % PerPage + PerPage;
  }

  /** Pages 1 to k, one after the other. */
  function PagesUpTo(exercises: seq<Exercise>, k: nat): seq<Exercise> {
    if k == 0 then [] else PagesUpTo(exercises, k - 1) + CurrentExercises(exercises, k)
  }

  lemma {:induction false} PagesUpToPrefix(exercises: seq<Exercise>, k: nat)
    ensures PagesUpTo(exercises, k) == exercises[..if k * PerPage <= |exercises| then k * PerPage else |exercises|]
    decreases k
  {
    if k > 0 {
      PagesUpToPrefix(exercises, k - 1);
      assert (k - 1) * PerPage >= 0;
    }
  }

  /** The numbered pages together show every exercise once, in order. */
  lemma PagesCoverResults(exercises: seq<Exercise>)
    ensures PagesUpTo(exercises, PageCount(|exercises|)) == exercises
  {
    PagesUpToPrefix(exercises, PageCount(|exercises|));
  }

  /** Every page button leads to a page that shows exercises. */
  lemma ButtonsLeadToResults(exercises: seq<Exercise>, currentPage: int, i: int)
    requires 0 <= i < |PageButtons(|exercises|, currentPage)|
    ensures CurrentExercises(exercises, PageButtons(|exercises|, currentPage)[i].number) != []
  {
    PageBounds(exercises, i + 1);
  }

  /** `capitalizeFirstLetter`: the first character upper-cased, the rest kept. */
  function CapitalizeFirstLetter(s: string): (r: string)
    ensures |r| == |s|
    ensures s != [] ==> r[0] == JsText.UpperChar(s[0]) && r[1..] == s[1..]
  {
    if s == [] then "" else [JsText.UpperChar(s[0])] + s[1..]
  }

  lemma CapitalizeIdempotent(s: string)
    ensures CapitalizeFirstLetter(CapitalizeFirstLetter(s)) == CapitalizeFirstLetter(s)
  {
    if s != [] {
      var c := CapitalizeFirstLetter(s);
      assert JsText.UpperChar(c[0]) == c[0];
      assert [c[0]] + c[1..] == c;
    }
  }

  /** Characters `encodeURIComponent` leaves as they are. */
  predicate Unreserved(c: char) {
    ('A' <= c <= 'Z') || ('a' <= c <= 'z') || ('0' <= c <= '9')
    || c == '-' || c == '_' || c == '.' || c == '!' || c == '~' || c == '*'
    || c == '\'' || c == '(' || c == ')'
  }

  function HexDigit(d: nat): char
    requires d < 16
  {
    "0123456789ABCDEF"[d]
  }

  /** `%XX` for one byte. */
  function PercentByte(b: nat): string
    requires b < 256
  {
    ['%', HexDigit(b / 16), HexDigit(b % 16)]
  }

  /** The UTF-8 bytes of a character. */
  function Utf8(c: char): seq<nat> {
    var v := c as int;
    if v < 0x80 then [v]
    else if v < 0x800 then [0xC0 + v / 0x40, 0x80 + v % 0x40]
    else if v < 0x10000 then [0xE0 + v / 0x1000, 0x80 + (v / 0x40) % 0x40, 0x80 + v % 0x40]
    else [0xF0 + (v / 0x40000) % 8, 0x80 + (v / 0x1000) % 0x40, 0x80 + (v / 0x40) % 0x40, 0x80 + v % 0x40]
  }

  function PercentBytes(bytes: seq<nat>): string
    requires forall i :: 0 <= i < |bytes| ==> bytes[i] < 256
  {
    if bytes == [] then "" else PercentByte(bytes[0]) + PercentBytes(bytes[1..])
  }

  /** `encodeURIComponent(s)` */
  function EncodeUriComponent(s: string): string {
    if s == [] then ""
    else
      var c := s[0];
      (if Unreserved(c) then [c] else PercentBytes(Utf8(c))) + EncodeUriComponent(s[1..])
  }

  /** Characters a URL path segment can carry without ending it. */
  predicate SegmentSafe(c: char) {
    Unreserved(c) || c == '%' || ('A' <= c <= 'F') || ('0' <= c <= '9')
  }

  lemma {:induction false} PercentBytesSafe(bytes: seq<nat>)
    requires forall i :: 0 <= i < |bytes| ==> bytes[i] < 256
    ensures forall i :: 0 <= i < |PercentBytes(bytes)| ==> SegmentSafe(PercentBytes(bytes)[i])
    ensures |PercentBytes(bytes)| == 3 * |bytes|
    decreases |bytes|
  {
    if bytes != [] {
      PercentBytesSafe(bytes[1..]);
    }
  }

  lemma Utf8Bytes(c: char)
    ensures 1 <= |Utf8(c)| <= 4
    ensures forall i :: 0 <= i < |Utf8(c)| ==> Utf8(c)[i] < 256
  {
  }

  /** The encoded muscle group stays one path segment: no '/', '?', '#' or space survives. */
  lemma {:induction false} EncodedIsOneSegment(s: string)
    ensures forall i :: 0 <= i < |EncodeUriComponent(s)| ==> SegmentSafe(EncodeUriComponent(s)[i])
    decreases |s|
  {
    if s != [] {
      EncodedIsOneSegment(s[1..]);
      if !Unreserved(s[0]) {
        Utf8Bytes(s[0]);
        PercentBytesSafe(Utf8(s[0]));
      }
    }
  }

  function HexValue(c: char): nat {
    if '0' <= c <= '9' then c as int - '0' as int
    else if 'A' <= c <= 'F' then c as int - 'A' as int + 10
    else 0
  }

  /** The inverse of `EncodeUriComponent` on its own output for ASCII text: each
      "%XY" with upper-case hex digits becomes one character. It is not
      `decodeURIComponent` in general: lower-case or non-hex digits read as 0,
      where `decodeURIComponent` reads the former and throws on the latter. */
  function DecodeEncoded(t: string): string
    decreases |t|
  {
    if t == [] then ""
    else if t[0] == '%' && |t| >= 3 then [(HexValue(t[1]) * 16 + HexValue(t[2])) as char] + DecodeEncoded(t[3..])
    else [t[0]] + DecodeEncoded(t[1..])
  }

  lemma DecodeLiteral(c: char, rest: string)
    requires c != '%'
    ensures DecodeEncoded([c] + rest) == [c] + DecodeEncoded(rest)
  {
    assert ([c] + rest)[1..] == rest;
  }

  lemma DecodePercent(v: nat, rest: string)
    requires v < 0x80
    ensures DecodeEncoded(PercentByte(v) + rest) == [v as char] + DecodeEncoded(rest)
  {
    var t := PercentByte(v) + rest;
    assert t[0] == '%' && t[1] == HexDigit(v / 16) && t[2] == HexDigit(v % 16);
    assert HexValue(HexDigit(v / 16)) == v / 16;
    assert HexValue(HexDigit(v % 16)) == v % 16;
    assert t[3..] == rest;
  }

  lemma PercentAscii(c: char)
    requires c as int < 0x80
    ensures PercentBytes(Utf8(c)) == PercentByte(c as int)
  {
    var b := Utf8(c);
    assert b == [c as int];
    assert b[1..] == [];
    assert PercentBytes(b) == PercentByte(b[0]) + PercentBytes(b[1..]);
  }

  lemma EncodeAsciiChar(s: string)
    requires s != [] && s[0] as int < 0x80 && !Unreserved(s[0])
    ensures EncodeUriComponent(s) == PercentByte(s[0] as int) + EncodeUriComponent(s[1..])
  {
    PercentAscii(s[0]);
  }

  /** For ASCII text, decoding the encoded form gives the text back. */
  lemma {:induction false} EncodeDecodeAscii(s: string)
    requires forall i :: 0 <= i < |s| ==> s[i] as int < 0x80
    ensures DecodeEncoded(EncodeUriComponent(s)) == s
    decreases |s|
  {
    if s != [] {
      EncodeDecodeAscii(s[1..]);
      var c := s[0];
      if Unreserved(c) {
        DecodeLiteral(c, EncodeUriComponent(s[1..]));
      } else {
        EncodeAsciiChar(s);
        DecodePercent(c as int, EncodeUriComponent(s[1..]));
      }
      assert [c] + s[1..] == s;
    }
  }

  /** The request URL for a muscle group. */
  function SearchUrl(muscle: string): string {
    "https://exercisedb.p.rapidapi.com/exercises/bodyPart/" + EncodeUriComponent(muscle)
  }

  class ExercisePage {
    var selectedMuscle: string
    var exercises: seq<Exercise>
    var currentPage: int
    var error: Option<string>
    var loading: bool

    /** Page numbers start at 1 and only the page buttons change them. */
    predicate Valid()
      reads this
    {
      currentPage >= 1
    }

    constructor ()
      ensures Valid()
      ensures selectedMuscle == "" && exercises == [] && currentPage == 1
      ensures error == None && !loading
    {
      selectedMuscle := "";
      exercises := [];
      currentPage := 1;
      error := None;
      loading := false;
    }

    /** `handleMuscleChange` */
    method HandleMuscleChange(value: string)
      modifies this
      ensures selectedMuscle == value
      ensures exercises == old(exercises) && currentPage == old(currentPage)
      ensures error == old(error) && loading == old(loading)
    {
      selectedMuscle := value;
    }

    /** `paginate`, called by the button of page `pageNumber`. */
    method Paginate(pageNumber: int)
      requires pageNumber >= 1
      modifies this
      ensures Valid()
      ensures currentPage == pageNumber
      ensures selectedMuscle == old(selectedMuscle) && exercises == old(exercises)
      ensures error == old(error) && loading == old(loading)
    {
      currentPage := pageNumber;
    }

    /** `handleSearch` once the request for `SearchUrl(selectedMuscle)` has settled:
        `fetched` is the response's exercises, `None` when the request failed.
        Without a chosen muscle group nothing happens. The page number is kept. */
    method HandleSearch(fetched: Option<seq<Exercise>>)
      requires Valid()
      modifies this
      ensures Valid()
      ensures old(selectedMuscle) == "" ==>
        exercises == old(exercises) && error == old(error) && loading == old(loading)
      ensures old(selectedMuscle) != "" ==> !loading
      ensures old(selectedMuscle) != "" && fetched.Some? ==> exercises == fetched.value && error == None
      ensures old(selectedMuscle) != "" && fetched.None? ==> exercises == old(exercises) && error == Some(SearchFailed)
      ensures selectedMuscle == old(selectedMuscle) && currentPage == old(currentPage)
    {
      if selectedMuscle == "" {
        return;
      }
      loading := true;
      error := None;
      if fetched.Some? {
        exercises := fetched.value;
      } else {
        error := Some(SearchFailed);
      }
      loading := false;
    }

    /** `handleSearch` with the page number set back to 1 on a successful search. */
    method HandleSearchFromFirstPage(fetched: Option<seq<Exercise>>)
      requires Valid()
      modifies this
      ensures Valid()
      ensures old(selectedMuscle) != "" && fetched.Some? ==> exercises == fetched.value && currentPage == 1
      ensures old(selectedMuscle) != "" && fetched.Some? && fetched.value != [] ==>
        CurrentExercises(exercises, currentPage) != []
      ensures old(selectedMuscle) == "" || fetched.None? ==>
        exercises == old(exercises) && currentPage == old(currentPage)
      ensures old(selectedMuscle) != "" ==> !loading
      ensures old(selectedMuscle) != "" && fetched.Some? ==> error == None
      ensures old(selectedMuscle) != "" && fetched.None? ==> error == Some(SearchFailed)
      ensures selectedMuscle == old(selectedMuscle)
    {
      var searched := selectedMuscle != "";
      HandleSearch(fetched);
      if searched && fetched.Some? {
        currentPage := 1;
        PageBounds(exercises, 1);
      }
    }
  }

  /** Browsing to page 2 of one search and then searching a group with fewer
      than eleven exercises, as `handleSearch` is written: the new results exist
      but the page shows none of them. */
  method StalePageAfterSearch(first: seq<Exercise>, second: seq<Exercise>) returns (page: ExercisePage)
    requires |first| > PerPage && 1 <= |second| <= PerPage
    ensures page.exercises == second && page.currentPage == 2
    ensures CurrentExercises(page.exercises, page.currentPage) == []
  {
    page := new ExercisePage();
    page.HandleMuscleChange("back");
    page.HandleSearch(Some(first));
    page.Paginate(2);
    page.HandleSearch(Some(second));
    PageBounds(second, 2);
  }

  /** The same steps with the page number reset: the new results are shown. */
  method FreshPageAfterSearch(first: seq<Exercise>, second: seq<Exercise>) returns (page: ExercisePage)
    requires |first| > PerPage && 1 <= |second| <= PerPage
    ensures page.exercises == second && page.currentPage == 1
    ensures CurrentExercises(page.exercises, page.currentPage) == second
  {
    page := new ExercisePage();
    page.HandleMuscleChange("back");
    page.HandleSearchFromFirstPage(Some(first));
    page.Paginate(2);
    page.HandleSearchFromFirstPage(Some(second));
  }
}
