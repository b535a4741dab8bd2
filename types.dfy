/** The service's records (types.go) and string constants (consts.go) that
    the request layer handles. Node kinds and statuses are declared in both
    Go files with the same values; they are declared once here. */
module Types {

  const NodeKindAsset := "ASSET"
  const NodeKindFile := "FILE"
  const NodeKindFolder := "FOLDER"
  const NodeKindGroup := "GROUP"

  const NodeStatusAvailable := "AVAILABLE"
  const NodeStatusPending := "PENDING"
  const NodeStatusTrash := "TRASH"
  const NodeStatusPurged := "PURGED"

  /** The answer of the endpoint discovery call. */
  datatype Endpoint = Endpoint(customerExists: bool, contentUrl: string, metadataUrl: string)

  datatype ContentProperties = ContentProperties(size: int, contentType: string, md5: string)

  datatype Node = Node(id: string, name: string, kind: string, parents: seq<string>, status: string,
                       contentProperties: ContentProperties)

  /** One page of a node listing: the nodes, their count as reported, and
      the token of the next page ("" on the last one). */
  datatype Nodes = Nodes(nodes: seq<Node>, count: int, nextToken: string)
}
