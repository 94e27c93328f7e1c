/** The classification tags of rectangles/enums.py. Each Python `Enum` becomes a
    datatype with exactly the same variants; `Value()` is the enum member's string
    value and `FromValue` is the lookup `IntersectionType("line")` and friends. */
module Enums {
  import opened Wrappers

  /** A non-empty identifier made of lower-case letters and underscores. */
  predicate IsLowerName(s: string) {
    |s| > 0 && forall i :: 0 <= i < |s| ==> ('a' <= s[i] <= 'z' || s[i] == '_')
  }

  datatype IntersectionType = NONE | POINT | LINE | AREA {
    function Value(): (s: string)
      ensures IsLowerName(s)
    {
      match this
      case NONE => "none"
      case POINT => "point"
      case LINE => "line"
      case AREA => "area"
    }
  }

  function IntersectionTypeFromValue(s: string): (r: Option<IntersectionType>)
    ensures r.Some? ==> r.value.Value() == s
    ensures r.None? ==> s !in {"none", "point", "line", "area"}
  {
    if s == "none" then Some(IntersectionType.NONE)
    else if s == "point" then Some(IntersectionType.POINT)
    else if s == "line" then Some(IntersectionType.LINE)
    else if s == "area" then Some(IntersectionType.AREA)
    else None
  }

  /** Every tag's value looks up that tag again, so the tag-to-value map is injective. */
  lemma IntersectionTypeValueRoundTrip(t: IntersectionType, u: IntersectionType)
    ensures IntersectionTypeFromValue(t.Value()) == Some(t)
    ensures t.Value() == u.Value() ==> t == u
  {
  }

  datatype ContainmentType = NONE | A_IN_B | B_IN_A {
    function Value(): (s: string)
      ensures IsLowerName(s)
    {
      match this
      case NONE => "none"
      case A_IN_B => "a_in_b"
      case B_IN_A => "b_in_a"
    }
  }

  function ContainmentTypeFromValue(s: string): (r: Option<ContainmentType>)
    ensures r.Some? ==> r.value.Value() == s
    ensures r.None? ==> s !in {"none", "a_in_b", "b_in_a"}
  {
    if s == "none" then Some(ContainmentType.NONE)
    else if s == "a_in_b" then Some(ContainmentType.A_IN_B)
    else if s == "b_in_a" then Some(ContainmentType.B_IN_A)
    else None
  }

  lemma ContainmentTypeValueRoundTrip(t: ContainmentType, u: ContainmentType)
    ensures ContainmentTypeFromValue(t.Value()) == Some(t)
    ensures t.Value() == u.Value() ==> t == u
  {
  }

  datatype AdjacencyType = NONE | PROPER | SUB_LINE | PARTIAL {
    function Value(): (s: string)
      ensures IsLowerName(s)
    {
      match this
      case NONE => "none"
      case PROPER => "proper"
      case SUB_LINE => "sub_line"
      case PARTIAL => "partial"
    }
  }

  function AdjacencyTypeFromValue(s: string): (r: Option<AdjacencyType>)
    ensures r.Some? ==> r.value.Value() == s
    ensures r.None? ==> s !in {"none", "proper", "sub_line", "partial"}
  {
    if s == "none" then Some(AdjacencyType.NONE)
    else if s == "proper" then Some(AdjacencyType.PROPER)
    else if s == "sub_line" then Some(AdjacencyType.SUB_LINE)
    else if s == "partial" then Some(AdjacencyType.PARTIAL)
    else None
  }

  lemma AdjacencyTypeValueRoundTrip(t: AdjacencyType, u: AdjacencyType)
    ensures AdjacencyTypeFromValue(t.Value()) == Some(t)
    ensures t.Value() == u.Value() ==> t == u
  {
  }
}
