/** The persisted settings record, read by the download handler. Only its
    shape and its defaults are modelled; loading and saving are file I/O. */
module Db {

  /** The three settings, kept as the free strings the settings file holds:
      `quality` is "best" or "normal", `downVideoList` "yes" or "no" when
      written by the settings page, but any string can be read back. */
  datatype Settings = Settings(quality: string, downVideoList: string, downloadPath: string)

  /** The record used when no settings file can be read; `downloadDir` is the
      platform download directory, or "" when there is none. */
  function Default(downloadDir: string): (s: Settings)
    ensures s.downloadPath == downloadDir
    ensures s.quality == "normal" && s.downVideoList == "no"
  {
    Settings("normal", "no", downloadDir)
  }
}
