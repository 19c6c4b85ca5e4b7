/** The service detail page: the badge label shown for a service's category
    and the navigation to the inquiry form that its call to action starts. */
module ServiceDetail {

  /** The badge label for a category. */
  function CategoryLabel(category: string): string
  {
    if category == "it-solutions" then "IT Infrastructure"
    else if category == "wellness" then "Wellness Program"
    else "Platform Enablement"
  }

  /** The `serviceType` the call to action hands to the form. */
  function FormServiceType(category: string): string
  {
    if category == "wellness" then "wellness"
    else if category == "platform-enablement" || category == "platform" then "platform"
    else "it"
  }

  /** The navigation state `{ serviceType, serviceTitle }`. */
  datatype NavState = NavState(serviceType: string, serviceTitle: string)

  function CtaState(category: string, title: string): NavState
  {
    NavState(FormServiceType(category), title)
  }

  // ---- Properties ----

  /** The form type is always one of the three the form knows, never empty,
      and the title is carried unchanged. */
  lemma CtaStateSpec(category: string, title: string)
    ensures CtaState(category, title).serviceType in {"it", "wellness", "platform"}
    ensures CtaState(category, title).serviceType != ""
    ensures CtaState(category, title).serviceTitle == title
  {
  }

  /** The two mappings agree on the known categories, but an unrecognised
      category is labelled a platform service while the form treats it as
      an IT one; `platform` is labelled a platform service too. */
  lemma LabelAndTypeAgreement(category: string)
    ensures category == "it-solutions" ==>
      CategoryLabel(category) == "IT Infrastructure" && FormServiceType(category) == "it"
    ensures category == "wellness" ==>
      CategoryLabel(category) == "Wellness Program" && FormServiceType(category) == "wellness"
    ensures category in {"platform-enablement", "platform"} ==>
      CategoryLabel(category) == "Platform Enablement" && FormServiceType(category) == "platform"
    ensures category !in {"it-solutions", "wellness", "platform-enablement", "platform"} ==>
      CategoryLabel(category) == "Platform Enablement" && FormServiceType(category) == "it"
  {
  }
}
