/** The reflow settings and the merge that applies a parsed settings
    modification on top of them. */
module ReflowSettings {
  import opened Wrappers

  datatype Settings = Settings(
    preferredLineLength: int,
    doubleSpaceBetweenSentences: bool,
    resizeHeaderDashLines: bool,
    wrapLongLinks: bool,
    formatOnSave: bool)

  /** The `settings` object of a parsed modification line; a key that the
      object does not define is `None`. */
  datatype SettingsModification = SettingsModification(
    preferredLineLength: Option<int>,
    doubleSpaceBetweenSentences: Option<bool>,
    resizeHeaderDashLines: Option<bool>,
    wrapLongLinks: Option<bool>)

  /** The supplied value when there is one, the current value otherwise. */
  function Override<T>(current: T, supplied: Option<T>): T {
    match supplied
    case Some(v) => v
    case None => current
  }

  /** `updateSettings`: each of the four recognised keys takes the
      modification's value when it supplies one and keeps its current value
      otherwise; `formatOnSave` is never touched. */
  function UpdateSettings(s: Settings, m: SettingsModification): (r: Settings)
    ensures r.preferredLineLength != s.preferredLineLength ==> m.preferredLineLength == Some(r.preferredLineLength)
    ensures r.doubleSpaceBetweenSentences != s.doubleSpaceBetweenSentences ==> m.doubleSpaceBetweenSentences == Some(r.doubleSpaceBetweenSentences)
    ensures r.resizeHeaderDashLines != s.resizeHeaderDashLines ==> m.resizeHeaderDashLines == Some(r.resizeHeaderDashLines)
    ensures r.wrapLongLinks != s.wrapLongLinks ==> m.wrapLongLinks == Some(r.wrapLongLinks)
    ensures m.preferredLineLength.Some? ==> r.preferredLineLength == m.preferredLineLength.value
    ensures m.doubleSpaceBetweenSentences.Some? ==> r.doubleSpaceBetweenSentences == m.doubleSpaceBetweenSentences.value
    ensures m.resizeHeaderDashLines.Some? ==> r.resizeHeaderDashLines == m.resizeHeaderDashLines.value
    ensures m.wrapLongLinks.Some? ==> r.wrapLongLinks == m.wrapLongLinks.value
    ensures r.formatOnSave == s.formatOnSave
  {
    s.(preferredLineLength := Override(s.preferredLineLength, m.preferredLineLength),
       doubleSpaceBetweenSentences := Override(s.doubleSpaceBetweenSentences, m.doubleSpaceBetweenSentences),
       resizeHeaderDashLines := Override(s.resizeHeaderDashLines, m.resizeHeaderDashLines),
       wrapLongLinks := Override(s.wrapLongLinks, m.wrapLongLinks))
  }

  /** Applying the same modification a second time changes nothing. */
  lemma UpdateSettingsIdempotent(s: Settings, m: SettingsModification)
    ensures UpdateSettings(UpdateSettings(s, m), m) == UpdateSettings(s, m)
  {
  }

  /** A modification that supplies no key leaves the settings as they are. */
  lemma EmptyModificationIsIdentity(s: Settings)
    ensures UpdateSettings(s, SettingsModification(None, None, None, None)) == s
  {
  }

  /** Two modifications merged key by key, the later one winning. */
  function Then(a: SettingsModification, b: SettingsModification): SettingsModification {
    SettingsModification(
      if b.preferredLineLength.Some? then b.preferredLineLength else a.preferredLineLength,
      if b.doubleSpaceBetweenSentences.Some? then b.doubleSpaceBetweenSentences else a.doubleSpaceBetweenSentences,
      if b.resizeHeaderDashLines.Some? then b.resizeHeaderDashLines else a.resizeHeaderDashLines,
      if b.wrapLongLinks.Some? then b.wrapLongLinks else a.wrapLongLinks)
  }

  /** Successive settings lines act like one line carrying, per key, the
      last value supplied. */
  lemma UpdateSettingsCompose(s: Settings, a: SettingsModification, b: SettingsModification)
    ensures UpdateSettings(UpdateSettings(s, a), b) == UpdateSettings(s, Then(a, b))
  {
  }

  /** A modification that supplies all four keys makes the result forget the
      previous values of those keys. */
  lemma FullModificationForgetsPrevious(s: Settings, t: Settings, m: SettingsModification)
    requires m.preferredLineLength.Some? && m.doubleSpaceBetweenSentences.Some?
    requires m.resizeHeaderDashLines.Some? && m.wrapLongLinks.Some?
    requires s.formatOnSave == t.formatOnSave
    ensures UpdateSettings(s, m) == UpdateSettings(t, m)
  {
  }
}
