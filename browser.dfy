/** The browser tab both pages run in: its localStorage, the address it was last sent to, and the
    requests its pages sent. */
module Browser {
  import opened Js
  import opened Credentials

  const OriginalParamsKey := "oauth_original_params"
  const TokensKey := "google_tokens"
  const ProfileKey := "google_profile"

  /** `localStorage.getItem(key)` where the page tests it for truthiness: present and not empty. */
  function StoredText(storage: map<string, string>, key: string): Option<string> {
    if key in storage && storage[key] != "" then Some(storage[key]) else None
  }

  /** A request a page sent: the code exchange posted to this application's own endpoint, or the
      credential bundle posted to the GKP backend. */
  datatype Request =
    | ExchangePost(code: string, state: Option<string>)
    | BackendPost(url: string, bundle: Bundle)

  class Tab {
    const json: JsonCodec
    var storage: map<string, string>
    var location: Option<string>
    var sent: seq<Request>

    constructor(json: JsonCodec, storage: map<string, string>)
      ensures this.json == json && this.storage == storage
      ensures location == None && sent == []
    {
      this.json := json;
      this.storage := storage;
      location := None;
      sent := [];
    }

    /** `localStorage.setItem(key, value)`. */
    method SetItem(key: string, value: string)
      modifies this
      ensures storage == old(storage)[key := value]
      ensures location == old(location) && sent == old(sent)
    {
      storage := storage[key := value];
    }

    /** `localStorage.removeItem(key)`. */
    method RemoveItem(key: string)
      modifies this
      ensures storage == old(storage) - {key}
      ensures location == old(location) && sent == old(sent)
    {
      storage := storage - {key};
    }

    /** `window.location.href = url`. */
    method Navigate(url: string)
      modifies this
      ensures location == Some(url)
      ensures storage == old(storage) && sent == old(sent)
    {
      location := Some(url);
    }

    /** A `fetch` call leaving the tab. */
    method Send(request: Request)
      modifies this
      ensures sent == old(sent) + [request]
      ensures storage == old(storage) && location == old(location)
    {
      sent := sent + [request];
    }
  }
}
