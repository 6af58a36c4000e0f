/**
 * The sidebar widget (src/locations/Sidebar.tsx): it looks up the entry for the
 * content type being edited, resolves the override or the default, and shows
 * either a "no tutorial" message, a Go button, or the embedded video.
 */
module Sidebar {
  import opened Wrappers
  import opened Config
  import ConfigScreen

  /** The three things the widget can render below its heading. */
  datatype View = NoTutorial | GoButton | EmbeddedVideo(src: string)

  const EmbedPrefix: string := "https://demo.arcade.software/"
  const EmbedSuffix: string := "?embed&embed_mobile=inline&embed_desktop=inline&show_copy_link=true"

  /** `installation.contentTypeGuides?.[contentType]`. */
  function FindContentType(installation: InstallationParameters, contentType: ContentType): (e: Option<GuideEntry>)
    ensures e.Some? <==> installation.contentTypeGuides.Some? && contentType in installation.contentTypeGuides.value
    ensures e.Some? ==> e.value == installation.contentTypeGuides.value[contentType]
  {
    match installation.contentTypeGuides
    case None => None
    case Some(m) => if contentType in m then Some(m[contentType]) else None
  }

  /**
   * `e?.guideId ?? e?.defaultGuideId ?? null`: `??` skips only null and undefined,
   * so a present override wins even when it is the empty string.
   */
  function ResolveGuideId(e: Option<GuideEntry>): (id: Option<string>)
    ensures id.Some? <==> e.Some? && (e.value.guideId.Some? || e.value.defaultGuideId.Some?)
    ensures e.Some? && e.value.guideId.Some? ==> id == e.value.guideId
    ensures e.Some? && e.value.guideId.None? ==> id == e.value.defaultGuideId
  {
    match e
    case None => None
    case Some(entry) =>
      match entry.guideId
      case Some(g) => Some(g)
      case None => entry.defaultGuideId
  }

  /** A template literal renders null as the text "null". */
  function Interpolate(id: Option<string>): string
  {
    match id
    case Some(s) => s
    case None => "null"
  }

  /** The embed URL for the video id. */
  function IframeSrc(id: Option<string>): (url: string)
    ensures |url| == |EmbedPrefix| + |Interpolate(id)| + |EmbedSuffix|
    ensures url[..|EmbedPrefix|] == EmbedPrefix
    ensures url[|url| - |EmbedSuffix|..] == EmbedSuffix
  {
    EmbedPrefix + Interpolate(id) + EmbedSuffix
  }

  /** Reads the video id back out of an embed URL. */
  function EmbeddedId(url: string): Option<string>
  {
    if |url| >= |EmbedPrefix| + |EmbedSuffix|
       && url[..|EmbedPrefix|] == EmbedPrefix
       && url[|url| - |EmbedSuffix|..] == EmbedSuffix
    then Some(url[|EmbedPrefix|..|url| - |EmbedSuffix|])
    else None
  }

  /** The embed URL carries the id verbatim: it can be read back. */
  lemma EmbeddedIdOfIframeSrc(id: string)
    ensures EmbeddedId(IframeSrc(Some(id))) == Some(id)
  {
  }

  /** The render branch for the resolved id and the click flag. */
  function SelectView(arcadeVideoId: Option<string>, showingArcadeVideo: bool): (v: View)
    ensures v == NoTutorial <==> arcadeVideoId.None? || arcadeVideoId.value == ""
    ensures v == GoButton <==> arcadeVideoId.Some? && arcadeVideoId.value != "" && !showingArcadeVideo
    ensures v.EmbeddedVideo? <==> arcadeVideoId.Some? && arcadeVideoId.value != "" && showingArcadeVideo
    ensures v.EmbeddedVideo? ==> EmbeddedId(v.src) == arcadeVideoId
  {
    if arcadeVideoId.None? || arcadeVideoId.value == "" then NoTutorial
    else if !showingArcadeVideo then GoButton
    else
      EmbeddedIdOfIframeSrc(arcadeVideoId.value);
      EmbeddedVideo(IframeSrc(arcadeVideoId))
  }

  /**
   * An override saved as the empty string (what the edit dialog sends when its
   * override field is left blank) hides the default: the widget shows the
   * "no tutorial" message whatever the default is.
   */
  lemma BlankOverrideHidesDefault(m: GuideMapping, contentType: ContentType, defaultGuideId: Option<string>, showing: bool)
    ensures var installation := InstallationParameters(Some(ConfigScreen.Upsert(m, contentType, defaultGuideId, Some(""))));
            SelectView(ResolveGuideId(FindContentType(installation, contentType)), showing) == NoTutorial
  {
  }

  /**
   * For a content type among the defaults, a sync turns an empty override back
   * into null, so the default is resolved again.
   */
  lemma SyncRestoresDefault(m: GuideMapping, defaults: DefaultConfig, contentType: ContentType)
    requires contentType in m && m[contentType].guideId == Some("")
    requires contentType in defaults
    ensures var installation := InstallationParameters(Some(ConfigScreen.Sync(m, defaults)));
            ResolveGuideId(FindContentType(installation, contentType)) == defaults[contentType]
  {
  }

  /**
   * A content type that is not among the defaults is carried through the sync as
   * it is: an empty override survives and the widget still shows "no tutorial".
   */
  lemma SyncKeepsBlankOutsideDefaults(m: GuideMapping, defaults: DefaultConfig, contentType: ContentType, showing: bool)
    requires contentType in m && m[contentType].guideId == Some("")
    requires contentType !in defaults
    ensures var installation := InstallationParameters(Some(ConfigScreen.Sync(m, defaults)));
            && ResolveGuideId(FindContentType(installation, contentType)) == Some("")
            && SelectView(ResolveGuideId(FindContentType(installation, contentType)), showing) == NoTutorial
  {
  }

  class SidebarState {
    /** The installation parameters the host passes to the sidebar. */
    const installation: InstallationParameters
    /** The id of the content type whose entry is being edited. */
    const contentType: ContentType
    var arcadeVideoId: Option<string>
    var showingArcadeVideo: bool

    constructor (installation: InstallationParameters, contentType: ContentType)
      ensures this.installation == installation && this.contentType == contentType
      ensures arcadeVideoId == None && !showingArcadeVideo
    {
      this.installation := installation;
      this.contentType := contentType;
      arcadeVideoId := None;
      showingArcadeVideo := false;
    }

    /** The mount effect: resolve the id for the current content type. */
    method ResolveVideo()
      modifies this`arcadeVideoId
      ensures arcadeVideoId == ResolveGuideId(FindContentType(installation, contentType))
    {
      arcadeVideoId := ResolveGuideId(FindContentType(installation, contentType));
    }

    /** `handleButtonClick`: the video is shown from now on; nothing sets the flag back. */
    method HandleButtonClick()
      modifies this`showingArcadeVideo
      ensures showingArcadeVideo
    {
      showingArcadeVideo := true;
    }

    function CurrentView(): (v: View)
      reads this
      ensures v.EmbeddedVideo? ==> showingArcadeVideo && v.src == IframeSrc(arcadeVideoId)
    {
      SelectView(arcadeVideoId, showingArcadeVideo)
    }
  }
}
