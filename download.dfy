/** The extension rule `downloadFile` of src/utils/download.js applies to a
    recording URL before fetching it. */
module Download {
  import opened Common

  predicate HasAudioExtension(url: string) {
    EndsWith(url, ".mp3") || EndsWith(url, ".wav")
  }

  /** The URL actually fetched: kept when it already names an .mp3 or .wav
      file, otherwise extended by ".mp3" (recording URLs often have no
      extension). */
  function DownloadUrl(url: string): (r: string)
    ensures HasAudioExtension(url) ==> r == url
    ensures !HasAudioExtension(url) ==> r == url + ".mp3"
    ensures HasAudioExtension(r)
    ensures url <= r
  {
    if !EndsWith(url, ".mp3") && !EndsWith(url, ".wav") then url + ".mp3" else url
  }

  /** Applying the rule twice is the same as applying it once. */
  lemma DownloadUrlIdempotent(url: string)
    ensures DownloadUrl(DownloadUrl(url)) == DownloadUrl(url)
  {
  }
}
