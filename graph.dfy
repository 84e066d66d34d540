/** The Graph API endpoint every tool sends its single GET request to. */
module Graph {
  import opened Values
  import opened Params

  const ApiVersion: string := "v22.0"
  const GraphUrl: string := "https://graph.facebook.com/" + ApiVersion

  /** The URL and query parameters of the one GET request a tool issues. */
  datatype Request = Request(url: string, params: Params)

  /** `{FB_GRAPH_URL}/{id}` */
  function NodeUrl(id: string): string {
    GraphUrl + "/" + id
  }

  /** `{FB_GRAPH_URL}/{id}/{edge}` */
  function EdgeUrl(id: string, edge: string): string {
    GraphUrl + "/" + id + "/" + edge
  }

  /** The base mapping every tool starts from: `{'access_token': token}`. */
  function TokenParams(token: string): Params {
    map["access_token" := VStr(token)]
  }

  lemma TokenParamsKeys(token: string)
    ensures TokenParams(token).Keys == {"access_token"}
  {
  }
}
