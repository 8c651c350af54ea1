/**
 * The home page's service cards link to `/services#<slug>`, where the slug is
 * `service.title.toLowerCase().replace(' ', '-')`; the services page gives its
 * sections the matching ids.
 */
module HomePage {
  import opened JsStrings

  /** The three card titles, in order. */
  const ServiceTitles: seq<string> := ["Personal Tax", "Business Tax", "International Tax"]

  /** The section ids of the services page, in the same order. */
  const ServiceSectionIds: seq<string> := ["personal-tax", "business-tax", "international-tax"]

  /** Lower-casing moves no space. */
  lemma {:induction false} IndexOfSpaceLowered(s: string)
    ensures IndexOf(ToLowerCase(s), ' ') == IndexOf(s, ' ')
  {
    if s != [] {
      assert ToLowerCase(s)[1..] == ToLowerCase(s[1..]);
      IndexOfSpaceLowered(s[1..]);
    }
  }

  /** The anchor slug: every character lower-cased, the first space (only) turned into `-`. */
  function AnchorSlug(title: string): (slug: string)
    ensures |slug| == |title|
    ensures forall i :: 0 <= i < |title| ==>
      slug[i] == if i == IndexOf(title, ' ') then '-' else LowerChar(title[i])
  {
    IndexOfSpaceLowered(title);
    ReplaceFirst(ToLowerCase(title), ' ', '-')
  }

  function AnchorHref(title: string): string {
    "/services#" + AnchorSlug(title)
  }

  /** Spaces after the first survive in the slug. */
  lemma LaterSpacesKept(title: string, i: int)
    requires 0 <= i < |title| && title[i] == ' ' && i != IndexOf(title, ' ')
    ensures AnchorSlug(title)[i] == ' '
  {
  }

  /** A slug has no ASCII capital letters. */
  lemma SlugHasNoUppercase(title: string)
    ensures forall i :: 0 <= i < |AnchorSlug(title)| ==> !('A' <= AnchorSlug(title)[i] <= 'Z')
  {
  }

  lemma FirstSpaceAt(title: string, k: int)
    requires 0 <= k < |title| && title[k] == ' '
    requires forall i :: 0 <= i < k ==> title[i] != ' '
    ensures IndexOf(title, ' ') == k
  {
  }

  /** A slug is determined by the first space and the lower-cased letters. */
  lemma SlugOf(title: string, slug: string, k: int)
    requires 0 <= k < |title| && title[k] == ' '
    requires forall i :: 0 <= i < k ==> title[i] != ' '
    requires |slug| == |title| && slug[k] == '-'
    requires forall i :: 0 <= i < |title| && i != k ==> slug[i] == LowerChar(title[i])
    ensures AnchorSlug(title) == slug
  {
    FirstSpaceAt(title, k);
  }

  /** Card `n`'s section id is its title lower-cased, with a hyphen at the first space. */
  lemma SectionIdLetters(n: int, k: int)
    requires 0 <= n < 3 && k == [8, 8, 13][n]
    ensures var title, id := ServiceTitles[n], ServiceSectionIds[n];
      && 0 <= k < |title| && title[k] == ' ' && (forall i :: 0 <= i < k ==> title[i] != ' ')
      && |id| == |title| && id[k] == '-'
      && forall i :: 0 <= i < |title| && i != k ==> id[i] == LowerChar(title[i])
  {
  }

  /** Each card links to the section of the services page that it names. */
  lemma SlugsMatchServiceSections()
    ensures |ServiceTitles| == |ServiceSectionIds|
    ensures forall n :: 0 <= n < |ServiceTitles| ==> AnchorSlug(ServiceTitles[n]) == ServiceSectionIds[n]
  {
    forall n | 0 <= n < 3 ensures AnchorSlug(ServiceTitles[n]) == ServiceSectionIds[n] {
      var k := [8, 8, 13][n];
      SectionIdLetters(n, k);
      SlugOf(ServiceTitles[n], ServiceSectionIds[n], k);
    }
  }
}
