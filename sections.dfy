/**
 * The section descriptors: for each part of the day's liturgy fetched
 * through the shared extractor, its boundary pattern, its cache prefix and its
 * join mode.
 */
module Sections {
  import opened Text
  import opened Extract

  /** The arguments `GetFirstLecture`, `GetSecondLecture` and `GetPsalm` pass to the shared lookup. */
  datatype Section = Section(pattern: string, cachePrefix: string, psalm: bool)

  /**
   * First lecture: the group is the `PRIMERA LECTURA` marker and the span ends
   * at the first `Palabra de Dios.`. The call passes no join mode; it is the
   * non-psalm join.
   */
  const FirstLecture := Section(@"(PRIMERA\sLECTURA).*?Palabra de Dios\.", "first lecture ", false)

  /** Second lecture: as the first, with the `SEGUNDA LECTURA` marker. */
  const SecondLecture := Section(@"(SEGUNDA\sLECTURA).*?Palabra de Dios\.", "second lecture ", false)

  /**
   * Psalm: the group runs from `Palabra de Dios.` to the `<p>` before a
   * `<span`, and the span closes at the response marker; the psalm join.
   */
  const Psalm := Section(@"(Palabra\sde\sDios\..*<p>)<span.*?\sR.\s", "psalm ", true)

  /** The gospel has its own lookup (an older revision) and its own cache prefix. */
  const GospelPrefix := "gospel "

  /** The prefix of the raw provider record's cache key (shared by all sections of a day). */
  const ResponsePrefix := "response "

  predicate IsSection(s: Section)
  {
    s == FirstLecture || s == SecondLecture || s == Psalm
  }

  /** Every artifact prefix differs from the others and from the raw-record prefix in its first letter. */
  lemma PrefixesDistinct(s: Section)
    requires IsSection(s)
    ensures s.cachePrefix != "" && GospelPrefix != "" && ResponsePrefix != ""
    ensures s.cachePrefix[0] != ResponsePrefix[0] && s.cachePrefix[0] != GospelPrefix[0]
    ensures GospelPrefix[0] != ResponsePrefix[0]
    ensures forall t :: IsSection(t) && t != s ==> t.cachePrefix[0] != s.cachePrefix[0]
  {
  }

  /**
   * The lectures use the non-psalm join: when the fragment's last `<p>` is the
   * closing `Palabra de Dios.` and text comes before it, the content ends with
   * it after a blank line.
   */
  lemma LectureEnding(s: Section, ps: seq<string>)
    requires s == FirstLecture || s == SecondLecture
    requires NonEmpty(ps) != []
    ensures var c := Content(ps + ["Palabra de Dios."], s.psalm);
            |c| >= 18 && c[|c| - 18..] == "\n\nPalabra de Dios."
  {
    LastParagraphSetOff(ps, "Palabra de Dios.");
  }

  /** The psalm uses the single-newline join throughout. */
  lemma PsalmJoin(ps: seq<string>)
    requires forall i, k :: 0 <= i < |ps| && 0 <= k < |ps[i]| ==> ps[i][k] != '\n'
    ensures !Occurs(Content(ps, Psalm.psalm), "\n\n")
  {
    PsalmSingleNewlines(ps);
  }
}
