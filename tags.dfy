/** The task tag of the manager app: three optional labels written as
    `#category-subcategory-for_what`, with `_` standing for a missing label. */
module Tags {
  import opened Common

  /** The character that separates the three labels. */
  const Separator: char := '-'

  /** What an empty or missing label is written as. */
  const Placeholder: string := "_"

  datatype TagError = IndexError(index: nat)

  /** Joining with a one-character separator, as `sep.join(parts)` does. */
  function Join(parts: seq<string>, sep: char): string
  {
    if |parts| == 0 then ""
    else if |parts| == 1 then parts[0]
    else parts[0] + [sep] + Join(parts[1..], sep)
  }

  /** Splitting at every separator, as `s.split(sep)` does: the pieces
      between separators, empty pieces included, and never fewer than one. */
  function Split(s: string, sep: char): (parts: seq<string>)
    ensures |parts| >= 1
    ensures forall i :: 0 <= i < |parts| ==> sep !in parts[i]
  {
    if s == [] then [""]
    else
      var rest := Split(s[1..], sep);
      if s[0] == sep then [""] + rest
      else [[s[0]] + rest[0]] + rest[1..]
  }

  /** Splitting loses nothing: joining the pieces gives the string back. */
  lemma {:induction false} JoinSplit(s: string, sep: char)
    ensures Join(Split(s, sep), sep) == s
  {
    if s != [] {
      var rest := Split(s[1..], sep);
      JoinSplit(s[1..], sep);
      if s[0] == sep {
        assert ([""] + rest)[1..] == rest;
      } else if |rest| > 1 {
        assert ([[s[0]] + rest[0]] + rest[1..])[1..] == rest[1..];
      }
    }
  }

  /** A piece without separators splits into itself. */
  lemma {:induction false} SplitPiece(p: string, sep: char)
    requires sep !in p
    ensures Split(p, sep) == [p]
  {
    if p != [] {
      SplitPiece(p[1..], sep);
      assert [p[0]] + p[1..] == p;
    }
  }

  /** Splitting `p + sep + rest`, where `p` has no separator, yields `p` first. */
  lemma {:induction false} SplitCons(p: string, sep: char, rest: string)
    requires sep !in p
    ensures Split(p + [sep] + rest, sep) == [p] + Split(rest, sep)
  {
    var s := p + [sep] + rest;
    if p == [] {
      assert s[0] == sep && s[1..] == rest;
    } else {
      assert s[0] == p[0] && s[1..] == p[1..] + [sep] + rest;
      SplitCons(p[1..], sep, rest);
      assert [p[0]] + p[1..] == p;
    }
  }

  /** Joining pieces that hold no separator and splitting again gives the pieces back. */
  lemma {:induction false} SplitJoin(parts: seq<string>, sep: char)
    requires |parts| >= 1
    requires forall i :: 0 <= i < |parts| ==> sep !in parts[i]
    ensures Split(Join(parts, sep), sep) == parts
  {
    if |parts| == 1 {
      SplitPiece(parts[0], sep);
    } else {
      SplitJoin(parts[1..], sep);
      SplitCons(parts[0], sep, Join(parts[1..], sep));
      assert [parts[0]] + parts[1..] == parts;
    }
  }

  /** How one label is written: `field if field else '_'`. */
  function Encoded(field: Option<string>): string
  {
    if field.None? || field.value == "" then Placeholder else field.value
  }

  /** How one piece is read back: `p if p != '_' else None`. */
  function Decoded(part: string): Option<string>
  {
    if part == Placeholder then None else Some(part)
  }

  /** The tag text of three labels. */
  function TagText(category: Option<string>, subcategory: Option<string>, forWhat: Option<string>): (t: string)
    ensures t == "#" + Encoded(category) + "-" + Encoded(subcategory) + "-" + Encoded(forWhat)
  {
    var pieces := [Encoded(category), Encoded(subcategory), Encoded(forWhat)];
    assert pieces[1..][1..] == [Encoded(forWhat)];
    assert Join(pieces[1..], Separator) == Encoded(subcategory) + "-" + Encoded(forWhat);
    "#" + Join(pieces, Separator)
  }

  /** `tag[1:]`: everything after the first character, and "" for "". */
  function AfterFirst(tag: string): string
  {
    if tag == [] then [] else tag[1..]
  }

  /** The pieces of a tag, read back: the first character is dropped, the
      rest is split at every separator and each `_` becomes None. */
  function DescriptionParts(tag: string): seq<Option<string>>
  {
    var raw := Split(AfterFirst(tag), Separator);
    seq(|raw|, i requires 0 <= i < |raw| => Decoded(raw[i]))
  }

  /** A label as it comes back from its tag: the empty string is lost to None. */
  function Normalized(field: Option<string>): Option<string>
  {
    if field.None? || field.value == "" then None else field
  }

  /** A label that survives the round trip: no separator in it and not the placeholder itself. */
  predicate Encodable(field: Option<string>)
  {
    field.Some? ==> Separator !in field.value && field.value != Placeholder
  }

  /** Writing three labels as a tag and reading it back gives exactly three
      pieces, the labels themselves except that empty labels come back as None. */
  lemma RoundTrip(category: Option<string>, subcategory: Option<string>, forWhat: Option<string>)
    requires Encodable(category) && Encodable(subcategory) && Encodable(forWhat)
    ensures DescriptionParts(TagText(category, subcategory, forWhat))
         == [Normalized(category), Normalized(subcategory), Normalized(forWhat)]
  {
    var pieces := [Encoded(category), Encoded(subcategory), Encoded(forWhat)];
    var t := TagText(category, subcategory, forWhat);
    assert AfterFirst(t) == Join(pieces, Separator);
    SplitJoin(pieces, Separator);
  }

  /** The other direction: a tag that starts with `#` and has exactly three
      non-empty pieces is written back exactly as it was read. */
  lemma TextRoundTrip(tag: string)
    requires |tag| >= 1 && tag[0] == '#'
    requires |Split(tag[1..], Separator)| == 3
    requires forall i :: 0 <= i < 3 ==> Split(tag[1..], Separator)[i] != ""
    ensures |DescriptionParts(tag)| == 3
    ensures TagText(DescriptionParts(tag)[0], DescriptionParts(tag)[1], DescriptionParts(tag)[2]) == tag
  {
    var raw := Split(tag[1..], Separator);
    var parts := DescriptionParts(tag);
    assert forall i :: 0 <= i < 3 ==> Encoded(parts[i]) == raw[i];
    assert [Encoded(parts[0]), Encoded(parts[1]), Encoded(parts[2])] == raw;
    JoinSplit(tag[1..], Separator);
    assert [tag[0]] + tag[1..] == tag;
  }

  /** A label that holds the separator does not survive: `a-b` comes back as two labels. */
  lemma SeparatorSplitsLabel()
    ensures DescriptionParts(TagText(Some("a-b"), None, None))
         == [Some("a"), Some("b"), None, None]
  {
    var t := TagText(Some("a-b"), None, None);
    assert AfterFirst(t) == "a" + [Separator] + ("b" + [Separator] + ("_" + [Separator] + "_"));
    SplitCons("_", Separator, "_");
    SplitPiece("_", Separator);
    SplitCons("b", Separator, "_" + [Separator] + "_");
    SplitCons("a", Separator, "b" + [Separator] + ("_" + [Separator] + "_"));
  }

  /** The tag model: three optional labels, updated in place when a tag is read. */
  class Tag {
    var category: Option<string>
    var subcategory: Option<string>
    var forWhat: Option<string>

    constructor (category: Option<string>, subcategory: Option<string>, forWhat: Option<string>)
      ensures this.category == category && this.subcategory == subcategory && this.forWhat == forWhat
    {
      this.category := category;
      this.subcategory := subcategory;
      this.forWhat := forWhat;
    }

    /** The tag text: the first two labels are collected in a loop, the third appended after it. */
    method ToTag() returns (tag: string)
      ensures tag == TagText(category, subcategory, forWhat)
    {
      var parts: seq<string> := [];
      var fields := [category, subcategory];
      for i := 0 to |fields|
        invariant |parts| == i
        invariant forall k :: 0 <= k < i ==> parts[k] == Encoded(fields[k])
      {
        parts := parts + [Encoded(fields[i])];
      }
      parts := parts + [Encoded(forWhat)];
      assert parts == [Encoded(category), Encoded(subcategory), Encoded(forWhat)];
      tag := "#" + Join(parts, Separator);
    }

    /** Reads a tag into the three labels, in order. A tag of fewer than three
        pieces fails at the first missing index, after the labels before it
        have already been assigned; pieces beyond the third are ignored. */
    method ToDescription(tag: string) returns (outcome: Result<(), TagError>)
      modifies this
      ensures var parts := DescriptionParts(tag);
        && category == parts[0]
        && subcategory == (if |parts| >= 2 then parts[1] else old(subcategory))
        && forWhat == (if |parts| >= 3 then parts[2] else old(forWhat))
        && (outcome.Success? <==> |parts| >= 3)
        && (outcome.Failure? ==> outcome.error == IndexError(|parts|))
    {
      var newParts := DescriptionParts(tag);
      category := newParts[0];
      if |newParts| < 2 {
        return Failure(IndexError(1));
      }
      subcategory := newParts[1];
      if |newParts| < 3 {
        return Failure(IndexError(2));
      }
      forWhat := newParts[2];
      outcome := Success(());
    }
  }
}
