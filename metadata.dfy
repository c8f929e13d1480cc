/** The evidence source's name and the error codes it reports to the harvester (`Metadata.cs`). */
module Metadata {

  const Source := "Nsg"

  /** The identifier given by the caller has the wrong shape. */
  const ErrorInvalidInput := 1

  /** The upstream register does not know the organisation. */
  const ErrorOrganizationNotFound := 2

  /** The upstream register failed or answered something unusable. */
  const ErrorUpstreamError := 3
}
