/** The string table of a primitive block: an append-only list of strings
    that elements refer to by position. Position 0 is reserved and holds the
    empty string, so an index of 0 means "no string". */
module StringTables {
  import opened Wrappers

  class StringTable {
    var s: seq<string>

    /** Position 0 holds the empty string. */
    ghost predicate Valid()
      reads this
    {
      |s| >= 1 && s[0] == ""
    }

    /** `StringTable::new`, which `StringTable::default` also uses. */
    constructor ()
      ensures Valid()
      ensures s == [""]
      ensures Len() == 1 && IsEmpty()
    {
      s := [""];
    }

    /** Appends `x` and returns its position; earlier entries stay where they are. */
    method AddString(x: string) returns (index: nat)
      modifies this
      ensures s == old(s) + [x]
      ensures index == |old(s)| == Len() - 1
      ensures GetString(index) == Some(x)
      ensures old(Valid()) ==> Valid() && !IsEmpty()
    {
      s := s + [x];
      index := |s| - 1;
    }

    /** The string at `index`, if there is one. */
    function GetString(index: nat): (r: Option<string>)
      reads this
      ensures r.Some? <==> index < |s|
      ensures r.Some? ==> r.value == s[index]
    {
      if index < |s| then Some(s[index]) else None
    }

    /** The string at `index`, with the reserved position 0 and missing
      positions read as the empty string. */
    function GetStringOrEmpty(index: nat): (r: string)
      reads this
      ensures index == 0 || index >= |s| ==> r == ""
      ensures 0 < index < |s| ==> r == s[index]
    {
      if index == 0 || index >= |s| then "" else s[index]
    }

    /** The number of strings, the reserved one included. */
    function Len(): (n: nat)
      reads this
      ensures n == |s|
      ensures Valid() ==> n >= 1
    {
      |s|
    }

    /** Empty means nothing beyond the reserved entry. */
    function IsEmpty(): (b: bool)
      reads this
      ensures b <==> |s| <= 1
    {
      Len() <= 1
    }
  }

  /** On a valid table the two lookups agree, with a missing string read as
      the empty one. */
  lemma GetStringOrEmptyAgrees(t: StringTable, index: nat)
    requires t.Valid()
    ensures t.GetStringOrEmpty(index) == t.GetString(index).GetOr("")
  {
  }
}
