/** The value limits that GLSetting fixes for database text fields. */
module Settings {

  const NameLimit: nat := 128
  const DescriptionLimit: nat := 1024
  const GenericLimit: nat := 2048
}
