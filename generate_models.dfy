/**
 * The two text transformations of the model-generation script (generate_models.py):
 * rewriting an asyncpg connection URL into the plain `postgresql://` scheme that
 * sqlacodegen accepts, and dropping the "Using pgvector" notice from the head of
 * sqlacodegen's output.
 */
module GenerateModels {
  import opened Text

  const ASYNCPG_SCHEME: string := "postgres+asyncpg://"
  const ASYNCPG_SCHEME_LONG: string := "postgresql+asyncpg://"
  const PLAIN_SCHEME: string := "postgresql://"

  const CODING_LINE: string := "# coding: utf-8"
  const PGVECTOR_MARKER: string := "Using pgvector"

  /** `modify_postgres_url`: an empty URL gives "", an asyncpg scheme is replaced, anything else is kept. */
  function ModifyPostgresUrl(url: string): (r: string)
    ensures url == "" ==> r == ""
    ensures StartsWith(url, ASYNCPG_SCHEME) ==> r == PLAIN_SCHEME + url[|ASYNCPG_SCHEME|..]
    ensures StartsWith(url, ASYNCPG_SCHEME_LONG) ==> r == PLAIN_SCHEME + url[|ASYNCPG_SCHEME_LONG|..]
    ensures !StartsWith(url, ASYNCPG_SCHEME) && !StartsWith(url, ASYNCPG_SCHEME_LONG) ==> r == url
  {
    SchemesExclusive(url);
    if url == "" then ""
    else if StartsWith(url, ASYNCPG_SCHEME) then
      ReplaceFirstOfPrefix(url, ASYNCPG_SCHEME, PLAIN_SCHEME);
      ReplaceFirst(url, ASYNCPG_SCHEME, PLAIN_SCHEME)
    else if StartsWith(url, ASYNCPG_SCHEME_LONG) then
      ReplaceFirstOfPrefix(url, ASYNCPG_SCHEME_LONG, PLAIN_SCHEME);
      ReplaceFirst(url, ASYNCPG_SCHEME_LONG, PLAIN_SCHEME)
    else url
  }

  /** No URL starts with both asyncpg schemes: they differ at index 8. */
  lemma SchemesExclusive(url: string)
    ensures !(StartsWith(url, ASYNCPG_SCHEME) && StartsWith(url, ASYNCPG_SCHEME_LONG))
  {
    if StartsWith(url, ASYNCPG_SCHEME) && |url| >= |ASYNCPG_SCHEME_LONG| {
      assert url[8] == ASYNCPG_SCHEME[8] == '+';
      assert ASYNCPG_SCHEME_LONG[8] == 'q';
    }
  }

  /** A rewritten URL needs no further rewriting. */
  lemma ModifyPostgresUrlIdempotent(url: string)
    ensures ModifyPostgresUrl(ModifyPostgresUrl(url)) == ModifyPostgresUrl(url)
  {
    var r := ModifyPostgresUrl(url);
    if StartsWith(r, PLAIN_SCHEME) {
      // The plain scheme differs from the first asyncpg scheme at index 8
      // and from the second at index 10.
      assert r[8] == 'q' && ASYNCPG_SCHEME[8] == '+';
      assert r[10] == ':' && ASYNCPG_SCHEME_LONG[10] == '+';
    }
  }

  /** The code written to models.py for sqlacodegen's output `generated`. */
  function SkipHeader(generated: string): (r: string)
    ensures SplitLines(generated) == [] ==> r == generated
  {
    var lines := SplitLines(generated);
    if lines == [] then generated
    else if Strip(lines[0]) == CODING_LINE then
      if |lines| > 1 && Contains(lines[1], PGVECTOR_MARKER) then Join([lines[0]] + lines[2..], "\n")
      else Join(lines, "\n")
    else if Contains(lines[0], PGVECTOR_MARKER) then Join(lines[1..], "\n")
    else generated
  }

  /** Lines as `splitlines()` produces them: no boundaries inside, and no empty last line. */
  predicate WellFormedLines(lines: seq<string>) {
    (forall k :: 0 <= k < |lines| ==> NoLineBoundary(lines[k]))
    && (|lines| > 0 ==> lines[|lines| - 1] != "")
  }

  /** A coding line followed by the pgvector notice: exactly the notice is removed. */
  lemma SkipCodingAndNotice(lines: seq<string>)
    requires WellFormedLines(lines) && |lines| >= 2
    requires Strip(lines[0]) == CODING_LINE && Contains(lines[1], PGVECTOR_MARKER)
    ensures SplitLines(SkipHeader(Join(lines, "\n"))) == [lines[0]] + lines[2..]
  {
    var text := Join(lines, "\n");
    var kept := [lines[0]] + lines[2..];
    assert SplitLines(text) == lines by { SplitJoinLines(lines); }
    SkipHeaderOfCodingLines(text, lines);
    DropSecondLine(lines);
    SplitJoinLines(kept);
  }

  lemma DropSecondLine(lines: seq<string>)
    requires WellFormedLines(lines) && |lines| >= 2 && Strip(lines[0]) == CODING_LINE
    ensures WellFormedLines([lines[0]] + lines[2..])
  {
    var kept := [lines[0]] + lines[2..];
    assert |Strip(lines[0])| <= |lines[0]|;
    forall k | 0 <= k < |kept| ensures NoLineBoundary(kept[k]) {
      if k > 0 { assert kept[k] == lines[k + 1]; }
    }
    if |lines| > 2 { assert kept[|kept| - 1] == lines[|lines| - 1]; }
  }

  /** How `SkipHeader` treats text whose lines start with a coding line and the notice. */
  lemma SkipHeaderOfCodingLines(text: string, lines: seq<string>)
    requires SplitLines(text) == lines && |lines| >= 2
    requires Strip(lines[0]) == CODING_LINE && Contains(lines[1], PGVECTOR_MARKER)
    ensures SkipHeader(text) == Join([lines[0]] + lines[2..], "\n")
  {
  }

  /** A notice on the first line (not a coding line): exactly the first line is removed. */
  lemma SkipLeadingNotice(lines: seq<string>)
    requires WellFormedLines(lines) && |lines| >= 1
    requires Strip(lines[0]) != CODING_LINE && Contains(lines[0], PGVECTOR_MARKER)
    ensures SplitLines(SkipHeader(Join(lines, "\n"))) == lines[1..]
  {
    var kept := lines[1..];
    DropFirstLine(lines);
    assert SplitLines(Join(kept, "\n")) == kept by { SplitJoinLines(kept); }
    assert SplitLines(Join(lines, "\n")) == lines by { SplitJoinLines(lines); }
    assert SkipHeader(Join(lines, "\n")) == Join(kept, "\n") by { SkipHeaderOfLines(Join(lines, "\n"), lines); }
  }

  lemma DropFirstLine(lines: seq<string>)
    requires WellFormedLines(lines) && |lines| >= 1
    ensures WellFormedLines(lines[1..])
  {
    var kept := lines[1..];
    forall k | 0 <= k < |kept| ensures NoLineBoundary(kept[k]) {
      assert kept[k] == lines[k + 1];
    }
  }

  /** How `SkipHeader` treats text whose lines are known. */
  lemma SkipHeaderOfLines(text: string, lines: seq<string>)
    requires SplitLines(text) == lines && |lines| >= 1
    requires Strip(lines[0]) != CODING_LINE && Contains(lines[0], PGVECTOR_MARKER)
    ensures SkipHeader(text) == Join(lines[1..], "\n")
  {
  }

  /**
   * A coding line not followed by the notice: the lines are re-joined with "\n",
   * which leaves text with only "\n" boundaries and no trailing one unchanged.
   */
  lemma SkipCodingOnly(generated: string)
    requires PlainLines(generated)
    requires var lines := SplitLines(generated);
             lines != [] && Strip(lines[0]) == CODING_LINE
             && !(|lines| > 1 && Contains(lines[1], PGVECTOR_MARKER))
    ensures SkipHeader(generated) == generated
  {
    JoinSplitLines(generated);
  }

  /** Output with neither a coding line nor a notice at its head is written unchanged. */
  lemma SkipNothing(generated: string)
    requires var lines := SplitLines(generated);
             lines != [] ==> Strip(lines[0]) != CODING_LINE && !Contains(lines[0], PGVECTOR_MARKER)
    ensures SkipHeader(generated) == generated
  {
  }
}
