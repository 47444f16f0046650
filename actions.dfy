/** The actions the sidebar offers, by name. */
module Actions {

  /** Every extraction action is "Extract " followed by its subject. */
  const ExtractPrefix: string := "Extract "
  const EntitiesSubject: string := "Entities"
  const ObligationsSubject: string := "Obligations"
  const ResponsibilitiesSubject: string := "Responsibilities"
  const RightsSubject: string := "Rights"
  const LicenseTypeSubject: string := "License Type"
  const RisksSubject: string := "Risks"
  const ComplianceSubject: string := "Compliance"

  const EntitiesAction: string := ExtractPrefix + EntitiesSubject
  const ObligationsAction: string := ExtractPrefix + ObligationsSubject
  const ResponsibilitiesAction: string := ExtractPrefix + ResponsibilitiesSubject
  const RightsAction: string := ExtractPrefix + RightsSubject
  const LicenseTypeAction: string := ExtractPrefix + LicenseTypeSubject
  const RisksAction: string := ExtractPrefix + RisksSubject
  const ComplianceAction: string := ExtractPrefix + ComplianceSubject
  const ChatAction: string := "Chat with PDF"

  /** The eight actions the sidebar offers. */
  const SidebarActions: seq<string> := [
    EntitiesAction, ObligationsAction, ResponsibilitiesAction, RightsAction,
    LicenseTypeAction, RisksAction, ComplianceAction, ChatAction
  ]

  /** The actions answered by one template-plus-text prompt. */
  const FreeTextActions: set<string> := {
    ResponsibilitiesAction, RightsAction, LicenseTypeAction, RisksAction, ComplianceAction
  }

  /** Membership in the free-text actions, case by case. */
  lemma FreeTextActionCases(a: string)
    requires a in FreeTextActions
    ensures a == ResponsibilitiesAction || a == RightsAction || a == LicenseTypeAction ||
            a == RisksAction || a == ComplianceAction
  {
  }
}
