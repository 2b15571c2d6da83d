/**
 * Loading the valid access codes: every line of every page of the code
 * document is stripped, and the non-empty ones become codes. Opening the
 * document and extracting and splitting each page's text are not part of
 * this model; the pages arrive as sequences of lines.
 */
module Codes {
  import opened Text

  /** The code one line contributes: nothing for a blank line. */
  function LineCode(line: string): (r: set<string>)
    ensures r == {} <==> AllSpace(line)
    ensures forall c :: c in r ==> c == Strip(line)
  {
    if Strip(line) != "" then {Strip(line)} else {}
  }

  /** The codes a sequence of lines contributes. */
  function LineCodes(lines: seq<string>): (r: set<string>)
    ensures forall c :: c in r ==> c != "" && !IsSpace(c[0]) && !IsSpace(c[|c| - 1])
  {
    if lines == [] then {}
    else LineCodes(lines[..|lines| - 1]) + LineCode(lines[|lines| - 1])
  }

  /** The codes a sequence of pages contributes. */
  function PageCodes(pages: seq<seq<string>>): (r: set<string>)
    ensures forall c :: c in r ==> c != "" && !IsSpace(c[0]) && !IsSpace(c[|c| - 1])
  {
    if pages == [] then {}
    else PageCodes(pages[..|pages| - 1]) + LineCodes(pages[|pages| - 1])
  }

  /** Line `i` of `lines` strips to the code `c`. */
  predicate LineYields(lines: seq<string>, i: int, c: string) {
    0 <= i < |lines| && c != "" && Strip(lines[i]) == c
  }

  /** A code comes from a line exactly when some line strips to it. */
  lemma {:induction false} LineCodesMembers(lines: seq<string>, c: string)
    ensures c in LineCodes(lines) <==> exists i :: LineYields(lines, i, c)
  {
    if lines != [] {
      var init := lines[..|lines| - 1];
      LineCodesMembers(init, c);
      if c in LineCodes(lines) {
        if c in LineCodes(init) {
          var i :| LineYields(init, i, c);
          assert LineYields(lines, i, c);
        } else {
          assert LineYields(lines, |lines| - 1, c);
        }
      }
      if exists i :: LineYields(lines, i, c) {
        var i :| LineYields(lines, i, c);
        if i < |lines| - 1 {
          assert LineYields(init, i, c);
        }
      }
    }
  }

  /** Line `i` of page `p` strips to the code `c`. */
  predicate PageYields(pages: seq<seq<string>>, p: int, i: int, c: string) {
    0 <= p < |pages| && LineYields(pages[p], i, c)
  }

  /** Every loaded code comes from some line of some page. */
  lemma {:induction false} PageCodesSound(pages: seq<seq<string>>, c: string)
    requires c in PageCodes(pages)
    ensures exists p, i :: PageYields(pages, p, i, c)
  {
    var init, last := pages[..|pages| - 1], pages[|pages| - 1];
    if c in PageCodes(init) {
      PageCodesSound(init, c);
      var p, i :| PageYields(init, p, i, c);
      assert PageYields(pages, p, i, c);
    } else {
      LineCodesMembers(last, c);
      var i :| LineYields(last, i, c);
      assert PageYields(pages, |pages| - 1, i, c);
    }
  }

  /** Every line of every page that strips to a non-empty text contributes that text. */
  lemma {:induction false} PageCodesComplete(pages: seq<seq<string>>, p: int, i: int, c: string)
    requires PageYields(pages, p, i, c)
    ensures c in PageCodes(pages)
  {
    var init := pages[..|pages| - 1];
    if p < |pages| - 1 {
      assert PageYields(init, p, i, c);
      PageCodesComplete(init, p, i, c);
    } else {
      LineCodesMembers(pages[p], c);
    }
  }

  /** A code is loaded exactly when some line of some page strips to it. */
  lemma PageCodesMembers(pages: seq<seq<string>>, c: string)
    ensures c in PageCodes(pages) <==> exists p, i :: PageYields(pages, p, i, c)
  {
    if c in PageCodes(pages) {
      PageCodesSound(pages, c);
    }
    if exists p, i :: PageYields(pages, p, i, c) {
      var p, i :| PageYields(pages, p, i, c);
      PageCodesComplete(pages, p, i, c);
    }
  }

  /** `load_codes_from_pdf`: the loop over pages and lines that fills the code set. */
  method LoadCodes(pages: seq<seq<string>>) returns (codes: set<string>)
    ensures codes == PageCodes(pages)
  {
    codes := {};
    for p := 0 to |pages|
      invariant codes == PageCodes(pages[..p])
    {
      var lines := pages[p];
      for i := 0 to |lines|
        invariant codes == PageCodes(pages[..p]) + LineCodes(lines[..i])
      {
        var line := Strip(lines[i]);
        if line != "" {
          codes := codes + {line};
        }
        assert lines[..i + 1][..i] == lines[..i];
      }
      assert lines[..|lines|] == lines;
      assert pages[..p + 1][..p] == pages[..p];
    }
    assert pages[..|pages|] == pages;
  }
}
