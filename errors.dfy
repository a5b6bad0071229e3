/** The exceptions that leave the modelled code, named after what raises them. */
module Errors {

  datatype Error =
    | RequestFailed(url: string)  // `get_resource` (or the aiohttp request) raised
    | NotIterable                 // a batch response was `False`: `chain.from_iterable` raises TypeError
    | IdNotRequested(id: int)     // the sort key `track_ids.index(...)` raised ValueError
    | CouldNotResolve             // `resolve` raised ValueError('Could not resolve url')
    | NoMetaTag(url: string)      // the page has no googleplay meta tag: subscripting None raises TypeError
    | NoClientId                  // `get_credentials` raised RuntimeError
    | NoStreamUrl                 // `get_stream_url` gave None, which `get_resource` cannot fetch
}
