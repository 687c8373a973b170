/** The Outcome configuration entity (outcome-types.ts). */
module OutcomeTypes {
  import opened Wrappers

  /** One entry of `authorized_members`: a member id and its access right. */
  datatype AuthorizedMember = AuthorizedMember(id: string, accessRight: string)

  /** A stored Outcome: a connector selection with its JSON configuration. */
  datatype Outcome = Outcome(
    id: string,                                  // internal_id
    name: string,
    description: string,
    builtIn: Option<bool>,                       // built_in; absent on the outcomes users create
    connectorId: string,                         // outcome_connector_id
    configuration: string,                       // outcome_configuration, JSON text
    authorizedMembers: seq<AuthorizedMember>,
    authorizedAuthorities: seq<string>,
    created: string,
    updated: string)
}
