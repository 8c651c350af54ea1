/**
 * The FAQ accordion: which of the eight entries a page shows for a given `limit`,
 * whether the "View all FAQs" link is rendered, and the accordion item values.
 */
module Faq {
  import opened Wrappers
  import opened JsStrings

  datatype Faq = Faq(question: string, answer: string)

  /** `allFAQs`, in order. */
  const AllFaqs: seq<Faq> := [
    Faq("What's the difference between a tax adviser and an accountant?",
        "Accountants typically focus on recording historical transactions and preparing tax returns—they're great with numbers and compliance. Tax advisers focus on forward-looking strategy and planning. We identify opportunities to reduce your tax burden legally, structure your affairs efficiently, and plan ahead for life changes. Many clients benefit from both: their accountant handles compliance, and we work alongside them on strategy."),
    Faq("How do I know if I need a tax adviser?",
        "If you're self-employed, own a business, have investment income, family wealth to pass on, or are planning a major life change (retiring, moving abroad, etc.), a tax adviser can save you far more than you spend on fees. If your situation is straightforward, your accountant alone might suffice. That said, a free 30-minute consultation is the perfect way to find out. We'll review your situation and let you know honestly whether our services would benefit you."),
    Faq("Are your fees tax-deductible?",
        "For business owners and the self-employed: yes, professional fees for business tax advice are generally deductible against business income. For individuals: advice relating to your business or investments is deductible, but advice on purely personal matters (like some inheritance tax planning) may not be. This varies case by case, so we can discuss the treatment of your fees when you engage us."),
    Faq("What does the initial consultation include?",
        "Your free 30-minute consultation is a chance for us to listen. You will outline your situation, goals, and concerns. Natalie will ask questions to understand your circumstances, explain what tax planning opportunities or risks might apply to you, and give you a sense of how we would approach your situation. There is no obligation, and you will walk away with clearer thinking on your tax position."),
    Faq("Where do you provide services?",
        "We are based in London and primarily serve clients across England and Wales. We also advise international clients on cross-border planning, residency, and structuring questions. If you are unsure whether your situation falls within our scope, do get in touch. We may be able to help or refer you to a colleague who can."),
    Faq("Do you liaise with my accountant?",
        "Absolutely. We work best as part of a team. We will collaborate with your existing accountant to ensure our strategies are implemented correctly and that there is no duplication of effort. Many of our clients appreciate having a tax adviser and accountant working together. Each brings valuable expertise."),
    Faq("What if my situation is complex or international?",
        "This is our bread and butter. Complex personal situations (family structures, multiple properties, cross-border income) and international tax matters (residency planning, permanent establishment, transfer pricing) are areas where tailored advice really shines. The more complex your situation, the more valuable a good strategy becomes."),
    Faq("How do I get started?",
        "The easiest next step is to book a free 30-minute consultation. Simply fill out the contact form on this website or get in touch by email, and Natalie will be in touch to arrange a time that suits you. You can discuss your situation, ask questions, and we will outline next steps if you would like to work together.")
  ]

  /** `limit ? allFAQs.slice(0, limit) : allFAQs`. A missing or zero limit is falsy and
      shows everything; a negative limit is truthy and counts back from the end. */
  function Displayed(limit: Option<int>): (r: seq<Faq>)
    ensures |r| <= |AllFaqs| && r == AllFaqs[..|r|]
    ensures limit.None? || limit == Some(0) ==> r == AllFaqs
    ensures limit.Some? && limit.value > 0 ==> |r| == if limit.value < 8 then limit.value else 8
    ensures limit.Some? && limit.value < 0 ==> |r| == if 8 + limit.value > 0 then 8 + limit.value else 0
  {
    if limit.None? || limit.value == 0 then AllFaqs else SliceTo(AllFaqs, limit.value)
  }

  /** What `{showViewAll && limit && limit < allFAQs.length && (...)}` renders: React
      shows nothing for `false` and `undefined`, but the text "0" for the number 0. */
  datatype ViewAllRendering = Nothing | StrayZero | ViewAllLink

  function ViewAll(limit: Option<int>, showViewAll: bool): (r: ViewAllRendering)
    ensures r == ViewAllLink <==> showViewAll && limit.Some? && limit.value != 0 && limit.value < 8
    ensures r == StrayZero <==> showViewAll && limit == Some(0)
  {
    if !showViewAll || limit.None? then Nothing
    else if limit.value == 0 then StrayZero
    else if limit.value < |AllFaqs| then ViewAllLink
    else Nothing
  }

  /** With `showViewAll` set, the link is offered exactly when some entry is hidden. */
  lemma ViewAllIffSomeHidden(limit: Option<int>)
    ensures ViewAll(limit, true) == ViewAllLink <==> |Displayed(limit)| < |AllFaqs|
  {
  }

  /** The two uses: the home page passes `limit={3} showViewAll={true}`, the FAQ page
      passes nothing (`showViewAll` defaults to false). */
  lemma PageUses()
    ensures Displayed(Some(3)) == AllFaqs[..3] && ViewAll(Some(3), true) == ViewAllLink
    ensures Displayed(None) == AllFaqs && ViewAll(None, false) == Nothing
  {
  }

  /** The accordion item value `item-${idx}`. */
  function ItemValue(idx: nat): string {
    "item-" + NatToString(idx)
  }

  lemma ItemValueInjective(i: nat, j: nat)
    requires i != j
    ensures ItemValue(i) != ItemValue(j)
  {
    NatToStringInjective(i, j);
    assert ItemValue(i)[5..] == NatToString(i);
    assert ItemValue(j)[5..] == NatToString(j);
  }

  /** The item values of the displayed entries, in order. */
  function ItemValues(limit: Option<int>): (r: seq<string>)
    ensures |r| == |Displayed(limit)|
    ensures forall i, j :: 0 <= i < j < |r| ==> r[i] != r[j]
  {
    var r := seq(|Displayed(limit)|, (i: int) requires 0 <= i => ItemValue(i));
    forall i, j | 0 <= i < j < |r| ensures r[i] != r[j] {
      ItemValueInjective(i, j);
    }
    r
  }
}
