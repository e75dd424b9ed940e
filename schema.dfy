/** The default messages of the schema library that both validators rely on. */
module Schema {

  /** Reported by `required()` for a missing or empty string. */
  const RequiredMessage := "this is a required field"

  /** Reported by `url()` for a string that is not URL-shaped. */
  const InvalidUrlMessage := "this must be a valid URL"
}
