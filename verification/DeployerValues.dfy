/** The values of a deployment and the names and settings derived from them
    (pkg/controller/extension/shared/deployer.go). */
module DeployerValues {
  import opened GoStrings
  import opened ServiceTypes
  import NameserverLists

  const CHART_SHOOT_SEED := "shoot-cert-management-seed"
  const CHART_GARDEN := "cert-management-garden"
  const CHART_SEED := "cert-management-seed"
  const FULL_NAME := "cert-controller-manager"
  const CLASS_GARDEN := "garden"
  const CLASS_SEED := "seed"

  datatype Values = Values(
    extensionConfig: Configuration,
    certConfig: CertConfig,
    namespace: string,
    genericTokenKubeconfigSecretName: string,
    restrictedDomains: string,
    resources: seq<ResourceReference>,
    shootDeployment: bool,
    certClass: string,
    nextGenDNSShootService: bool)
  {
    function ChartNameSeed(): string {
      if shootDeployment then CHART_SHOOT_SEED
      else if certClass == CLASS_GARDEN then CHART_GARDEN
      else CHART_SEED
    }

    function InstanceNameGardenOrSeed(): string {
      "cert-management-" + certClass
    }

    function ShootClusterRoleName(): string {
      "extensions.gardener.cloud:extension-shoot-cert-service:" + if shootDeployment then "shoot" else certClass
    }

    function ShootNamespace(): string {
      if shootDeployment then "kube-system" else namespace
    }

    predicate RestrictedIssuer() {
      restrictedDomains != "" && extensionConfig.restrictIssuer.GetOr(false)
    }

    function PrecheckNameservers(): string {
      NameserverLists.EffectiveNameservers(
        if extensionConfig.acme.Some? then extensionConfig.acme.value.precheckNameservers else None,
        certConfig.precheckNameservers)
    }

    function CACertificates(): string {
      if extensionConfig.acme.Some? then extensionConfig.acme.value.caCertificates.GetOr("") else ""
    }

    function CertExpirationAlertDays(): int {
      if certConfig.alerting.Some? then certConfig.alerting.value.certExpirationAlertDays.GetOr(15) else 15
    }

    predicate DeactivateAuthorizations() {
      extensionConfig.acme.Some? && extensionConfig.acme.value.deactivateAuthorizations.GetOr(false)
    }

    function PropagationTimeout(): string {
      if extensionConfig.acme.Some? then extensionConfig.acme.value.propagationTimeout.GetOr("") else ""
    }

    predicate ShootIssuersEnabled() {
      shootDeployment && certConfig.shootIssuers.Some? && certConfig.shootIssuers.value.enabled
    }

    predicate DNSChallengeOnShootEnabled() {
      shootDeployment && certConfig.dnsChallengeOnShoot.Some? && certConfig.dnsChallengeOnShoot.value.enabled
    }
  }
}
