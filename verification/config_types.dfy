/**
 * The value shapes of the installation parameters (src/@types/config.ts).
 * A content-type identifier is a plain string: its own definition file is not
 * part of this model.
 */
module Config {
  import opened Wrappers

  type ContentType = string

  /** One entry of the guide mapping: the default video id and the administrator's override. */
  datatype GuideEntry = GuideEntry(defaultGuideId: Option<string>, guideId: Option<string>)

  /** Content type to guide entry; the whole persisted state of the extension. */
  type GuideMapping = map<ContentType, GuideEntry>

  /** The static default configuration: content type to default video id, which may be null. */
  type DefaultConfig = map<ContentType, Option<string>>

  /** The installation parameters; their `contentTypeGuides` property is optional. */
  datatype InstallationParameters = InstallationParameters(contentTypeGuides: Option<GuideMapping>)

  /** The mapping as an object spread sees it: an absent mapping spreads as `{}`. */
  function GuidesOf(p: InstallationParameters): GuideMapping
  {
    match p.contentTypeGuides
    case Some(m) => m
    case None => map[]
  }
}
