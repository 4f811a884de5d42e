/** The downstream cluster and the registration side of an import: tokens, manifest download, cleanup jobs,
    manifest objects and the fleet namespaces. Requests that read or change it are in ImportManifest.dfy. */
module Downstream {
  datatype Key = Key(ns: string, name: string)

  datatype ObjectId = ObjectId(kind: string, ns: string, name: string)

  datatype RemoteObject = RemoteObject(deleting: bool, body: string)

  datatype ManifestObject = ManifestObject(id: ObjectId, body: string)

  /** One YAML document of a manifest: it decodes into objects, or reading or decoding it fails. */
  datatype Document = Decoded(items: seq<ManifestObject>) | Broken

  datatype NamespaceState = Absent | Active | Terminating

  /** `cleanupJob` says that a job generated from "cattle-cleanup-" runs. */
  datatype Remote = Remote(
    objects: map<ObjectId, RemoteObject>,
    cleanupJob: bool,
    fleetAgent: NamespaceState,
    fleetSystem: bool)

  /** `tokens` names the clusters that have a registration token, `urls` is the manifest URL Rancher
      publishes in a token's status, `downloads` what a URL serves, `remotes` the reachable clusters. */
  datatype Side = Side(
    tokens: set<string>,
    urls: map<string, string>,
    downloads: map<string, seq<Document>>,
    remotes: map<Key, Remote>)
}
