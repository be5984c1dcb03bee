/**
 * The parcel panel's two colour choices and the expansion line
 * (src/components/LandInfo.tsx).
 */
module LandInfoView {
  import opened Text
  import opened LandData

  /** The Tailwind classes of the legal-status badge. */
  datatype LegalPalette = LegalPalette(bg: string, text: string, border: string, title: string)

  const LegalGreen: LegalPalette := LegalPalette("bg-green-50", "text-green-700", "border-green-200", "text-green-900")
  const LegalYellow: LegalPalette := LegalPalette("bg-yellow-50", "text-yellow-700", "border-yellow-200", "text-yellow-900")
  const LegalGray: LegalPalette := LegalPalette("bg-gray-50", "text-gray-700", "border-gray-200", "text-gray-900")

  /** "Complete" (a full title), tested first. */
  const Complete: string := "đầy đủ"
  /** "Pending". */
  const Pending: string := "chờ"

  /**
   * `getLegalColor(status)`: green for a complete title, else yellow for a
   * pending one, else gray; the complete test wins when both words occur.
   */
  function LegalColor(status: string): (p: LegalPalette)
    ensures p == LegalGreen <==> IsSubstring(Complete, status)
    ensures p == LegalYellow <==> !IsSubstring(Complete, status) && IsSubstring(Pending, status)
    ensures p == LegalGray <==> !IsSubstring(Complete, status) && !IsSubstring(Pending, status)
  {
    IncludesIsSubstring(status, Complete);
    IncludesIsSubstring(status, Pending);
    if Includes(status, Complete) then LegalGreen
    else if Includes(status, Pending) then LegalYellow
    else LegalGray
  }

  /** Every catalogue parcel is "Sổ đỏ đầy đủ" and so gets the green badge. */
  lemma CatalogueLegalGreen(i: nat)
    requires i < |MockLands()|
    ensures LegalColor(MockLands()[i].landInfo.legalStatus) == LegalGreen
  {
    var status := MockLands()[i].landInfo.legalStatus;
    assert status == "Sổ đỏ đầy đủ";
    assert status[6..12] == Complete;
    assert OccursAt(status, Complete, 6);
  }

  /** The classes of the expansion-potential card. */
  datatype ExpansionPalette = ExpansionPalette(bg: string, icon: string, title: string, text: string)

  const ExpansionGreen: ExpansionPalette := ExpansionPalette("bg-green-50", "text-green-600", "text-green-900", "text-green-700")
  const ExpansionRed: ExpansionPalette := ExpansionPalette("bg-red-50", "text-red-600", "text-red-900", "text-red-700")

  /** `getExpansionColor(canExpand)`. */
  function ExpansionColor(canExpand: bool): (p: ExpansionPalette)
    ensures p == ExpansionGreen <==> canExpand
    ensures p == ExpansionRed <==> !canExpand
  {
    if canExpand then ExpansionGreen else ExpansionRed
  }

  const CanExpandText: string := "✔️ Có thể mở rộng (nở hậu)"
  const CannotExpandText: string := "❌ Không thể mở rộng"

  /** The expansion line: a check mark exactly when the parcel can expand, a cross otherwise. */
  function ExpansionText(expansionPotential: bool): (s: string)
    ensures |s| > 0
    ensures s[0] == '✔' <==> expansionPotential
    ensures s[0] == '❌' <==> !expansionPotential
  {
    if expansionPotential then CanExpandText else CannotExpandText
  }
}
