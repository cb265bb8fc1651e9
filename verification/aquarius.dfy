/** Hosts and API roots of the vendor service that both clients use. */
module Aquarius {

  const ProdHost := "https://bcmoe-prod.aquaticinformatics.net:443"

  const PublishPath := "/AQUARIUS/Publish/v2"
  const AcquisitionPath := "/AQUARIUS/Acquisition/v2"
  const ProvisioningPath := "/AQUARIUS/Provisioning/v1"

  /** Login (POST) and logout (DELETE) both address this path. */
  const SessionPath := "/session"
}
