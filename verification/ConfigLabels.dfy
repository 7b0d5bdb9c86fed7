/** The labels and switches of pkg/config/config.go that the admissions read. */
module ConfigLabels {
  const SERVICE_NAME := "jmsf.jd.com/service"
  const SERVICE_GROUP := "jmsf.jd.com/group"
  const SERVICE_SPACE := "jmsf.jd.com/space"
  const JDAP_SERVICE_SPACE := "jmsf.jd.com/service-space"
  const APPLICATION := "jmsf.jd.com/app"
  const JDAP_APPLICATION := "app.jdap.io/name"
  const REGISTER_TYPE := "jmsf.jd.com/register"
  const CONFIGURE_TYPE := "jmsf.jd.com/configure"
  const SWIM_LANE := "jmsf.jd.com/swimlane"
  const BASE_SWIMLANE_CODE := "base"
  const CONFIG_CENTER_ENABLED := "CONFIG_CENTER_ENABLED"
  const ENHANCE_TYPE := "jmsf.jd.com/enhance"
  const ENHANCE_AGENT := "agent"
  const ENHANCE_SIDECAR := "sidecar"
  const SIDECAR_ENHANCE := "sidecar.istio.io/inject"
  const APM_TYPE := "jmsf.jd.com/apm"
  const TENANT := "jmsf.jd.com/tenant"
  const AGENT_VERSION_LABEL := "x-live-version"
}
