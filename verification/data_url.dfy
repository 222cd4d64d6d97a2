/**
 * Data URLs in the base64 form of section 3 of RFC 2397, as the browser's
 * file reader produces them and as the edge function returns its image.
 */
module DataUrls {

  /** `data:<mime>;base64,<data>`. */
  function DataUrl(mime: string, data: string): string {
    "data:" + mime + ";base64," + data
  }
}
