/** The Kubernetes objects the operator reads and writes, reduced to the fields it uses,
    together with the JSON merge patch that `client.MergeFrom` sends. */
module Kube {

  datatype Option<+T> = None | Some(value: T)

  // Annotation and label keys. The operator's own keys are constructors, every other key is Plain.
  datatype Key = NameKey | UidKey | ModeKey | BindingLabel | ManagedBy | ServiceNameLabel | Plain(key: string)
  type Strings = map<Key, string>

  /** A Go map lookup: a missing key reads as the empty string. */
  function Lookup(m: Strings, k: Key): string {
    if k in m then m[k] else ""
  }

  datatype Protocol = TCP | UDP
  datatype ServiceType = ClusterIPService | ExternalNameService | OtherService
  datatype ServicePort = ServicePort(name: string, protocol: Protocol, port: int, targetPort: int)
  datatype OwnerRef = OwnerRef(uid: string, controller: bool)

  datatype Service = Service(
    uid: string, clusterIP: string, kind: ServiceType, selector: map<string, string>,
    labels: Strings, annotations: Strings, owners: seq<OwnerRef>, ports: seq<ServicePort>)

  datatype AddressType = IPv4 | IPv6
  datatype Endpoint = Endpoint(addresses: seq<string>, ready: bool)
  datatype EndpointPort = EndpointPort(name: string, protocol: Protocol, port: int)

  datatype Slice = Slice(
    labels: Strings, annotations: Strings, owners: seq<OwnerRef>,
    addressType: AddressType, endpoints: seq<Endpoint>, ports: seq<EndpointPort>)

  datatype NamedSlice = NamedSlice(name: string, slice: Slice)
  datatype Subset = Subset(addresses: seq<string>, ports: seq<int>)

  /** The part of the namespace that several writers share. Legacy Endpoints are their subsets. */
  datatype Shared = Shared(
    services: map<string, Service>, slices: map<string, Slice>, endpoints: map<string, seq<Subset>>)

  predicate Labelled(slice: Slice, service: string) {
    ServiceNameLabel in slice.labels && slice.labels[ServiceNameLabel] == service
  }

  predicate ControlledBy(owners: seq<OwnerRef>, uid: string) {
    exists i :: 0 <= i < |owners| && owners[i].controller && owners[i].uid == uid
  }

  /** Does the patch computed from `before` and `after` mention key k? */
  predicate Changed<K, V(==)>(before: map<K, V>, after: map<K, V>, k: K) {
    (k in before) != (k in after) || (k in before && before[k] != after[k])
  }

  /** RFC 7396 on string maps: keys the two sides agree on keep whatever is stored. An emptied map is left out
      of the object's JSON, so the patch nulls the whole field and takes concurrently added keys with it. */
  function MergeMap<K, V(==)>(stored: map<K, V>, before: map<K, V>, after: map<K, V>): map<K, V> {
    if after == map[] && before != map[] then map[]
    else
      map k | k in stored.Keys + after.Keys && (if Changed(before, after, k) then k in after else k in stored)
        :: if Changed(before, after, k) then after[k] else stored[k]
  }

  function MergeField<V(==)>(stored: V, before: V, after: V): V {
    if before == after then stored else after
  }

  /** Merge patch on a Service. UID and cluster IP are never part of the patch. */
  function MergeService(stored: Service, before: Service, after: Service): Service {
    stored.(selector := MergeMap(stored.selector, before.selector, after.selector),
            labels := MergeMap(stored.labels, before.labels, after.labels),
            annotations := MergeMap(stored.annotations, before.annotations, after.annotations),
            kind := MergeField(stored.kind, before.kind, after.kind),
            ports := MergeField(stored.ports, before.ports, after.ports))
  }

  function MergeSlice(stored: Slice, before: Slice, after: Slice): Slice {
    Slice(MergeMap(stored.labels, before.labels, after.labels),
          MergeMap(stored.annotations, before.annotations, after.annotations),
          MergeField(stored.owners, before.owners, after.owners),
          MergeField(stored.addressType, before.addressType, after.addressType),
          MergeField(stored.endpoints, before.endpoints, after.endpoints),
          MergeField(stored.ports, before.ports, after.ports))
  }

  lemma MergeMapUnraced<K, V>(before: map<K, V>, after: map<K, V>)
    ensures MergeMap(before, before, after) == after
  {
    var m := MergeMap(before, before, after);
    forall k ensures (k in m) == (k in after) {}
    assert m.Keys == after.Keys;
  }

  /** A patch computed from what is really stored writes exactly the intended object. */
  lemma MergeServiceUnraced(before: Service, after: Service)
    requires before.uid == after.uid && before.clusterIP == after.clusterIP && before.owners == after.owners
    ensures MergeService(before, before, after) == after
  {
    MergeMapUnraced(before.selector, after.selector);
    MergeMapUnraced(before.labels, after.labels);
    MergeMapUnraced(before.annotations, after.annotations);
  }

  /** Whatever else was edited in between, a key the patch mentions, or any key of a map it empties, gets the
      intended value, and every other key keeps the stored one. */
  lemma MergeMapKey<K, V>(stored: map<K, V>, before: map<K, V>, after: map<K, V>, k: K)
    ensures Changed(before, after, k) || (after == map[] && before != map[]) ==>
              !Changed(MergeMap(stored, before, after), after, k)
    ensures !Changed(before, after, k) && !(after == map[] && before != map[]) ==>
              !Changed(MergeMap(stored, before, after), stored, k)
    ensures !Changed(stored, before, k) ==> !Changed(MergeMap(stored, before, after), after, k)
  {}

  lemma MergeSliceUnraced(before: Slice, after: Slice)
    ensures MergeSlice(before, before, after) == after
  {
    MergeMapUnraced(before.labels, after.labels);
    MergeMapUnraced(before.annotations, after.annotations);
  }
}
