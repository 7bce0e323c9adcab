/** The renaming `fetch_trends_data` applies to every column of the trends
    frame: `col.replace('å', 'a').replace('ä', 'a').replace('ö', 'o').replace(' ', '_')`. */
module ColumnNames {

  const ARing: char := '\U{00E5}'    // å
  const AUmlaut: char := '\U{00E4}'  // ä
  const OUmlaut: char := '\U{00F6}'  // ö

  /** `s.replace(from, to)` for one-character arguments: every occurrence
      of `from` becomes `to`. */
  function Replace(s: string, from: char, to: char): string {
    seq(|s|, i requires 0 <= i < |s| => if s[i] == from then to else s[i])
  }

  /** One column name after the four chained replacements. */
  function NormalizeColumn(name: string): string {
    Replace(Replace(Replace(Replace(name, ARing, 'a'), AUmlaut, 'a'), OUmlaut, 'o'), ' ', '_')
  }

  /** What each character turns into, read off the four replacements. */
  function Transliterate(c: char): char {
    if c == ARing || c == AUmlaut then 'a'
    else if c == OUmlaut then 'o'
    else if c == ' ' then '_'
    else c
  }

  predicate IsReplaced(c: char) {
    c == ARing || c == AUmlaut || c == OUmlaut || c == ' '
  }

  /** A name in which none of the four replaced characters occurs. */
  predicate IsNormalized(name: string) {
    forall i :: 0 <= i < |name| ==> !IsReplaced(name[i])
  }

  /** The chain of replacements is a character-by-character translation:
      same length, each character mapped on its own, every character other
      than the four left as it is, and none of the four left over. */
  lemma NormalizeColumnPointwise(name: string)
    ensures |NormalizeColumn(name)| == |name|
    ensures forall i :: 0 <= i < |name| ==> NormalizeColumn(name)[i] == Transliterate(name[i])
    ensures forall i :: 0 <= i < |name| && !IsReplaced(name[i]) ==> NormalizeColumn(name)[i] == name[i]
    ensures IsNormalized(NormalizeColumn(name))
  {
    var s1 := Replace(name, ARing, 'a');
    var s2 := Replace(s1, AUmlaut, 'a');
    var s3 := Replace(s2, OUmlaut, 'o');
    assert forall i :: 0 <= i < |name| ==> s3[i] == (if name[i] == OUmlaut then 'o' else if name[i] == ARing || name[i] == AUmlaut then 'a' else name[i]);
  }

  /** A name without any of the four characters is left as it is. */
  lemma NormalizedIsFixpoint(name: string)
    requires IsNormalized(name)
    ensures NormalizeColumn(name) == name
  {
    NormalizeColumnPointwise(name);
  }

  /** Renaming twice is renaming once. */
  lemma NormalizeColumnIdempotent(name: string)
    ensures NormalizeColumn(NormalizeColumn(name)) == NormalizeColumn(name)
  {
    NormalizeColumnPointwise(name);
    NormalizedIsFixpoint(NormalizeColumn(name));
  }

  /** The list comprehension over the frame's columns. */
  function NormalizeColumns(columns: seq<string>): (r: seq<string>)
    ensures |r| == |columns|
    ensures forall i :: 0 <= i < |columns| ==> r[i] == NormalizeColumn(columns[i]) && IsNormalized(r[i])
  {
    if columns == [] then []
    else
      NormalizeColumnPointwise(columns[0]);
      [NormalizeColumn(columns[0])] + NormalizeColumns(columns[1..])
  }

  /** Renaming the columns twice is renaming them once. */
  lemma NormalizeColumnsIdempotent(columns: seq<string>)
    ensures NormalizeColumns(NormalizeColumns(columns)) == NormalizeColumns(columns)
  {
    var once := NormalizeColumns(columns);
    forall i | 0 <= i < |columns|
      ensures NormalizeColumns(once)[i] == once[i]
    {
      NormalizeColumnIdempotent(columns[i]);
    }
  }
}
