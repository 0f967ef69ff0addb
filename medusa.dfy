/** Locale handling shared by the calls to the commerce backend (src/lib/categories.ts and
    src/components/layout/Header/SearchOverlay.tsx). */
module Medusa {

  /** `locale === 'lt' ? 'lt-LT' : 'en-GB'`. */
  function MedusaLocale(locale: string): (r: string)
    ensures r == "lt-LT" <==> locale == "lt"
    ensures r == "lt-LT" || r == "en-GB"
  {
    if locale == "lt" then "lt-LT" else "en-GB"
  }
}
