/** Small rules of the public page: which navigation entry is highlighted,
    whether the header is in its scrolled style, the phone links, and the
    enlarged image shown in the furniture viewer. */
module PublicPage {
  import opened Seqs
  import opened Text

  // ---------------------------------------------------------------------------
  // Scroll handler

  /** Height of the fixed header, subtracted from each section's top. */
  const HeaderOffset: int := 80

  /** The entry highlighted when no section has been reached. */
  const DefaultSection: string := "hero"

  /** The header switches style once the page is scrolled past this many pixels. */
  const ScrolledThreshold: int := 50

  /** A `section` element with an `id`, as the scroll handler sees it. */
  datatype SectionBox = SectionBox(id: string, offsetTop: int)

  /** The page has scrolled far enough for this section to count as current. */
  predicate Reached(b: SectionBox, scrollY: real) {
    scrollY >= (b.offsetTop - HeaderOffset) as real
  }

  /** Section `i` is the last one, in document order, that has been reached. */
  predicate IsLastReached(sections: seq<SectionBox>, scrollY: real, i: int) {
    && 0 <= i < |sections|
    && Reached(sections[i], scrollY)
    && forall j :: i < j < |sections| ==> !Reached(sections[j], scrollY)
  }

  /** The active section: the id of the last section in document order whose
      top, less the header height, is at or above the scroll position, or
      "hero" when there is none. The sections are visited in order and each
      reached one overwrites the answer. */
  method ActiveSection(sections: seq<SectionBox>, scrollY: real) returns (current: string)
    ensures (forall i :: 0 <= i < |sections| ==> !Reached(sections[i], scrollY)) ==>
              current == DefaultSection
    ensures forall i :: IsLastReached(sections, scrollY, i) ==> current == sections[i].id
  {
    current := DefaultSection;
    var last := -1;
    var k := 0;
    while k < |sections|
      invariant 0 <= k <= |sections|
      invariant -1 <= last < k
      invariant last == -1 ==> current == DefaultSection
      invariant last == -1 ==> forall j :: 0 <= j < k ==> !Reached(sections[j], scrollY)
      invariant last >= 0 ==> Reached(sections[last], scrollY) && current == sections[last].id
      invariant forall j :: last < j < k ==> !Reached(sections[j], scrollY)
    {
      if scrollY >= (sections[k].offsetTop - HeaderOffset) as real {
        current := sections[k].id;
        last := k;
      }
      k := k + 1;
    }
  }

  /** There is at most one last reached section, so the two cases of
      `ActiveSection` cover every input and never conflict. */
  lemma LastReachedUnique(sections: seq<SectionBox>, scrollY: real, i: int, j: int)
    requires IsLastReached(sections, scrollY, i) && IsLastReached(sections, scrollY, j)
    ensures i == j
  {
  }

  /** The header's scrolled style. */
  function Scrolled(scrollY: real): (b: bool)
    ensures b <==> scrollY > ScrolledThreshold as real
  {
    scrollY > 50.0
  }

  /** Once the header has switched to its scrolled style, scrolling further
      down keeps it there. */
  lemma ScrolledIsMonotone(y1: real, y2: real)
    requires y1 <= y2 && Scrolled(y1)
    ensures Scrolled(y2)
  {
  }

  // ---------------------------------------------------------------------------
  // Phone links

  /** Characters dropped from the dialled number. */
  predicate DropForTel(c: char) {
    IsJsWhitespace(c)
  }

  /** Characters dropped from the WhatsApp number: white space and `+`. */
  predicate DropForWhatsApp(c: char) {
    IsJsWhitespace(c) || c == '+'
  }

  /** `phone.replace(/\s/g, '')`. */
  function TelNumber(phone: string): (r: string)
    ensures forall i :: 0 <= i < |r| ==> !IsJsWhitespace(r[i]) && r[i] in phone
    ensures forall i :: 0 <= i < |phone| && !IsJsWhitespace(phone[i]) ==> phone[i] in r
  {
    RemoveChars(phone, DropForTel)
  }

  /** `phone.replace(/[\s+]/g, '')`. */
  function WhatsAppNumber(phone: string): (r: string)
    ensures forall i :: 0 <= i < |r| ==> !IsJsWhitespace(r[i]) && r[i] != '+' && r[i] in phone
    ensures forall i :: 0 <= i < |phone| && !IsJsWhitespace(phone[i]) && phone[i] != '+' ==>
              phone[i] in r
  {
    RemoveChars(phone, DropForWhatsApp)
  }

  /** The "call" link target. */
  function TelHref(phone: string): (r: string)
    ensures |r| >= 4 && r[..4] == "tel:" && r[4..] == TelNumber(phone)
  {
    "tel:" + TelNumber(phone)
  }

  /** The WhatsApp link target. */
  function WhatsAppHref(phone: string): (r: string)
    ensures |r| >= 14 && r[..14] == "https://wa.me/" && r[14..] == WhatsAppNumber(phone)
  {
    "https://wa.me/" + WhatsAppNumber(phone)
  }

  /** Cleaning a number a second time changes nothing. */
  lemma PhoneCleaningIdempotent(phone: string)
    ensures TelNumber(TelNumber(phone)) == TelNumber(phone)
    ensures WhatsAppNumber(WhatsAppNumber(phone)) == WhatsAppNumber(phone)
  {
    FilterIdempotent(phone, Kept(DropForTel));
    FilterIdempotent(phone, Kept(DropForWhatsApp));
  }

  predicate IsPlus(c: char) {
    c == '+'
  }

  /** The WhatsApp number is the dialled number with its `+` signs removed. */
  lemma WhatsAppIsTelWithoutPlus(phone: string)
    ensures WhatsAppNumber(phone) == RemoveChars(TelNumber(phone), IsPlus)
  {
    FilterFilter(phone, Kept(DropForTel), Kept(IsPlus), Kept(DropForWhatsApp));
  }

  /** Cleaning keeps the kept characters in order: cleaning two halves and
      joining them is cleaning the whole number. */
  lemma TelNumberKeepsOrder(a: string, b: string)
    ensures TelNumber(a + b) == TelNumber(a) + TelNumber(b)
  {
    FilterAppend(a, b, Kept(DropForTel));
  }

  // ---------------------------------------------------------------------------
  // Furniture viewer

  /** The enlarged image: the first `w=800` in the URL becomes `w=1200`. */
  function ModalImageUrl(url: string): (r: string)
    ensures (forall j :: 0 <= j <= |url| ==> !OccursAt(url, "w=800", j)) ==> r == url
    ensures forall i :: 0 <= i <= |url| && OccursAt(url, "w=800", i)
                          && (forall j :: 0 <= j < i ==> !OccursAt(url, "w=800", j))
                        ==> r == url[..i] + "w=1200" + url[i + 5..]
  {
    ReplaceFirst(url, "w=800", "w=1200")
  }

  /** The enlarged image of a typical image-service URL asks for the wider
      rendition; a URL without `w=800` is shown as it is. */
  lemma ModalImageExample()
    ensures ModalImageUrl("x?w=800") == "x?w=1200"
    ensures ModalImageUrl("x?w=1200") == "x?w=1200"
  {
    var u := "x?w=800";
    assert OccursAt(u, "w=800", 2);
    assert u[0..5][0] == 'x' && u[1..6][0] == '?';
    var v := "x?w=1200";
    forall j | 0 <= j <= |v|
      ensures !OccursAt(v, "w=800", j)
    {
      if j + 5 <= |v| {
        assert v[j..j + 5][0] == v[j] && v[j..j + 5][2] == v[j + 2];
      }
    }
  }
}
