/**
 * The account resource client (account-client.go): URL construction for the accounts
 * endpoint, and the four operations that delegate to the transport and pass its result
 * through. Logging on the error paths has no effect a caller can observe and is not modelled.
 */
module Accounts {
  import opened Wrappers
  import opened Decimal
  import opened RestClient

  /** The account resource. Its schema is not part of this model: an account is opaque. */
  datatype AccountData = AccountData(attributes: map<string, string>)

  /** The `links` object of the envelope: named URL strings. */
  datatype Links = Links(urls: map<string, string>)

  /** The zero values that `new(AccountData)` and `new(Links)` start from. */
  const NoAccount: AccountData := AccountData(map[])
  const NoLinks: Links := Links(map[])

  /** AccountParams: the page number, passed through as text, and the page size. */
  datatype AccountParams = AccountParams(number: string, size: Int64)

  /**
   * A `*AccountData` payload; None is a nil pointer. Once converted to `interface{}` even a nil
   * pointer is a non-nil payload, so it still travels as `{"data": null}`.
   */
  type Payload = Option<AccountData>

  // ---------------------------------------------------------------------------
  // URLs

  /** fetchAccountApiUrl: `{base}/{id}`. */
  function FetchUrl(baseUrl: string, id: string): (url: string)
    ensures |url| == |baseUrl| + 1 + |id|
    ensures baseUrl <= url && url[|baseUrl|] == '/' && url[|baseUrl| + 1..] == id
  {
    baseUrl + "/" + id
  }

  /** listAccountApiUrl: the base itself, or `{base}?page[number]={n}&page[size]={s}`. */
  function ListUrl(baseUrl: string, params: Option<AccountParams>): (url: string)
    ensures baseUrl <= url
    ensures params.None? <==> url == baseUrl
  {
    match params
    case None => baseUrl
    case Some(p) => baseUrl + "?page[number]=" + p.number + "&page[size]=" + Format(p.size)
  }

  /** deleteAccountApiUrl: `{base}/{id}?version={v}`. */
  function DeleteUrl(baseUrl: string, id: string, version: Int64): (url: string)
    ensures FetchUrl(baseUrl, id) <= url
    ensures baseUrl <= url
  {
    baseUrl + "/" + id + "?version=" + Format(version)
  }

  /** The delete URL is the fetch URL of the same account with the version as its query. */
  lemma DeleteUrlExtendsFetchUrl(baseUrl: string, id: string, version: Int64)
    ensures DeleteUrl(baseUrl, id, version) == FetchUrl(baseUrl, id) + "?version=" + Format(version)
  {
  }

  /** The version can be read back from the end of a delete URL: the URL pins the version. */
  lemma VersionReadBack(baseUrl: string, id: string, version: Int64)
    ensures var prefix := FetchUrl(baseUrl, id) + "?version=";
      && prefix <= DeleteUrl(baseUrl, id, version)
      && IsNumeral(DeleteUrl(baseUrl, id, version)[|prefix|..])
      && Parse(DeleteUrl(baseUrl, id, version)[|prefix|..]) == version
  {
    var prefix := FetchUrl(baseUrl, id) + "?version=";
    assert DeleteUrl(baseUrl, id, version)[|prefix|..] == Format(version);
    ParseFormat(version);
  }

  /** Two delete URLs for the same account differ whenever the versions do. */
  lemma DeleteUrlDeterminesVersion(baseUrl: string, id: string, v1: Int64, v2: Int64)
    requires DeleteUrl(baseUrl, id, v1) == DeleteUrl(baseUrl, id, v2)
    ensures v1 == v2
  {
    VersionReadBack(baseUrl, id, v1);
    VersionReadBack(baseUrl, id, v2);
  }

  /** The page size can be read back from the end of a paged list URL. */
  lemma PageSizeReadBack(baseUrl: string, params: AccountParams)
    ensures var prefix := baseUrl + "?page[number]=" + params.number + "&page[size]=";
      && prefix <= ListUrl(baseUrl, Some(params))
      && IsNumeral(ListUrl(baseUrl, Some(params))[|prefix|..])
      && Parse(ListUrl(baseUrl, Some(params))[|prefix|..]) == params.size
  {
    var prefix := baseUrl + "?page[number]=" + params.number + "&page[size]=";
    assert ListUrl(baseUrl, Some(params))[|prefix|..] == Format(params.size);
    ParseFormat(params.size);
  }

  /** Asking for page "0" of size 1 puts the parameters in the URL verbatim, brackets included. */
  lemma FirstPageOfOne(baseUrl: string)
    ensures ListUrl(baseUrl, Some(AccountParams("0", 1))) == baseUrl + "?page[number]=0&page[size]=1"
  {
    assert Format(1) == "1";
  }

  // ---------------------------------------------------------------------------
  // The client

  /** An `*AccountClient`: it refers to an `*HttpClient`, which it shares rather than owns. */
  class AccountClient {
    var httpClient: HttpClient

    /** NewAccountClient: the given client by reference, or a default one when it is nil. */
    constructor (httpClient: HttpClient?)
      ensures httpClient != null ==> this.httpClient == httpClient
      ensures httpClient == null ==>
        && fresh(this.httpClient)
        && this.httpClient.baseUrl == DefaultBaseUrl
        && this.httpClient.timeout == DurationOf(5000)
    {
      var client := httpClient;
      if client == null {
        client := new HttpClient(None);
      }
      this.httpClient := client;
    }

    /** FetchById: GET `{base}/{id}` into a fresh account and links. */
    method FetchById(
      id: string, lib: Library<Payload>, serve: (RequestView<Payload>, Int64) -> Exchange<AccountData, Links>)
      returns (account: Destination?<AccountData>, links: Destination?<Links>, response: Option<Response>, err: Option<Error>)
      ensures var o := Call(GET, FetchUrl(httpClient.baseUrl, id), None, true, lib, serve, httpClient.timeout);
        && response == o.response && err == o.error
        && (err.Some? ==> account == null && links == null)
        && (err.None? ==>
              && account != null && links != null
              && fresh(account) && fresh(links)
              && account.value == Overwrite(NoAccount, o.data)
              && links.value == Overwrite(NoLinks, o.links))
    {
      var accountResponse := new Destination(NoAccount);
      var linkData := new Destination(NoLinks);
      var url := FetchUrl(httpClient.baseUrl, id);
      response, err := httpClient.Get(url, None, accountResponse, linkData, lib, serve);
      if err.Some? {
        return null, null, response, err;
      }
      return accountResponse, linkData, response, None;
    }

    /** ListAccount: GET the (optionally paged) list into a fresh slice and links; a nil slice is []. */
    method ListAccount(
      params: Option<AccountParams>, lib: Library<Payload>,
      serve: (RequestView<Payload>, Int64) -> Exchange<seq<AccountData>, Links>)
      returns (accounts: seq<AccountData>, links: Destination?<Links>, response: Option<Response>, err: Option<Error>)
      ensures var o := Call(GET, ListUrl(httpClient.baseUrl, params), None, true, lib, serve, httpClient.timeout);
        && response == o.response && err == o.error
        && (err.Some? ==> accounts == [] && links == null)
        && (err.None? ==>
              && links != null && fresh(links)
              && accounts == Overwrite([], o.data)
              && links.value == Overwrite(NoLinks, o.links))
    {
      var accountList := new Destination<seq<AccountData>>([]);
      var linkData := new Destination(NoLinks);
      var url := ListUrl(httpClient.baseUrl, params);
      response, err := httpClient.Get(url, None, accountList, linkData, lib, serve);
      if err.Some? {
        return [], null, response, err;
      }
      return accountList.value, linkData, response, None;
    }

    /** CreateAccount: POST the payload to the base URL itself, decoding the created account and links. */
    method CreateAccount(
      payload: Payload, lib: Library<Payload>,
      serve: (RequestView<Payload>, Int64) -> Exchange<AccountData, Links>)
      returns (account: Destination?<AccountData>, links: Destination?<Links>, response: Option<Response>, err: Option<Error>)
      ensures var o := Call(POST, httpClient.baseUrl, Some(payload), true, lib, serve, httpClient.timeout);
        && response == o.response && err == o.error
        && (err.Some? ==> account == null && links == null)
        && (err.None? ==>
              && account != null && links != null
              && fresh(account) && fresh(links)
              && account.value == Overwrite(NoAccount, o.data)
              && links.value == Overwrite(NoLinks, o.links))
    {
      var accountResponse := new Destination(NoAccount);
      var linkData := new Destination(NoLinks);
      response, err := httpClient.Post(httpClient.baseUrl, Some(payload), accountResponse, linkData, lib, serve);
      if err.Some? {
        return null, null, response, err;
      }
      return accountResponse, linkData, response, None;
    }

    /** DeleteAccount: DELETE `{base}/{id}?version={v}` and return the transport's pair as it is. */
    method DeleteAccount<D, L>(
      id: string, version: Int64, lib: Library<Payload>,
      serve: (RequestView<Payload>, Int64) -> Exchange<D, L>)
      returns (response: Option<Response>, err: Option<Error>)
      ensures var o := Call(DELETE, DeleteUrl(httpClient.baseUrl, id, version), None, false, lib, serve, httpClient.timeout);
        response == o.response && err == o.error
    {
      var url := DeleteUrl(httpClient.baseUrl, id, version);
      response, err := httpClient.Delete(url, lib, serve);
      if err.Some? {
        return response, err;
      }
      return response, None;
    }
  }

  /** The create request always carries a body, even for a nil account pointer. */
  lemma CreateAlwaysSendsBody(baseUrl: string, payload: Payload, lib: Library<Payload>)
    requires BuildRequest(POST, baseUrl, Some(payload), lib).Ok?
    ensures BuildRequest(POST, baseUrl, Some(payload), lib).value.body == Some(DataEnvelope(payload))
  {
  }
}
