/** The Gandi LiveDNS record store as the solver sees it through the go-gandi client:
    rrsets addressed by (domain, name, type). Transport behaviour is an input to every
    call; the store changes only on a write the service accepts. */
module LiveDns {
  import opened Basics

  /** The address of one rrset. */
  datatype RecordKey = RecordKey(domain: string, name: string, rrsetType: string)

  /** `livedns.DomainRecord`, the fields the solver reads or writes. */
  datatype DomainRecord = DomainRecord(rrsetName: string, rrsetValues: seq<string>, rrsetTtl: int)

  type Records = map<RecordKey, DomainRecord>

  /** What a read returns for an rrset that does not exist: the zero record. */
  const EmptyRecord := DomainRecord("", [], 0)

  /** The answer of a successful read. */
  function Lookup(records: Records, key: RecordKey): DomainRecord
  {
    if key in records then records[key] else EmptyRecord
  }

  /** The solver's test for "a record is there": a name and at least one value. */
  predicate Found(r: DomainRecord) {
    r.rrsetName != "" && |r.rrsetValues| > 0
  }

  /** The answer to an update: a transport error, or the status code of the response. */
  datatype UpdateReply = TransportError | Status(code: int)

  /** One call made to the service, as seen from outside. */
  datatype Call =
    | GetCall(key: RecordKey)
    | UpdateCall(key: RecordKey, ttl: int, values: seq<string>)
    | DeleteCall(key: RecordKey)

  /** One LiveDNS account: its rrsets and the log of calls made against it. */
  class LiveDnsService {
    var records: Records
    ghost var calls: seq<Call>

    constructor (initial: Records)
      ensures records == initial && calls == []
    {
      records := initial;
      calls := [];
    }

    /** `GetDomainRecordByNameAndType`: the stored rrset, the zero record when there is
        none, or an error when the call fails. */
    method GetDomainRecordByNameAndType(domain: string, name: string, rrsetType: string, fails: bool)
      returns (r: Option<DomainRecord>)
      modifies this`calls
      ensures calls == old(calls) + [GetCall(RecordKey(domain, name, rrsetType))]
      ensures fails <==> r.None?
      ensures r.Some? ==> r.value == Lookup(records, RecordKey(domain, name, rrsetType))
    {
      calls := calls + [GetCall(RecordKey(domain, name, rrsetType))];
      if fails {
        r := None;
      } else {
        r := Some(Lookup(records, RecordKey(domain, name, rrsetType)));
      }
    }

    /** `UpdateDomainRecordByNameAndType`: replace the whole rrset with `values` and `ttl`.
        The service stores it when it answers 200. */
    method UpdateDomainRecordByNameAndType(domain: string, name: string, rrsetType: string,
                                           ttl: int, values: seq<string>, reply: UpdateReply)
      returns (r: UpdateReply)
      modifies this
      ensures calls == old(calls) + [UpdateCall(RecordKey(domain, name, rrsetType), ttl, values)]
      ensures r == reply
      ensures records == if reply == Status(200)
                         then old(records)[RecordKey(domain, name, rrsetType) := DomainRecord(name, values, ttl)]
                         else old(records)
    {
      var key := RecordKey(domain, name, rrsetType);
      calls := calls + [UpdateCall(key, ttl, values)];
      if reply == Status(200) {
        records := records[key := DomainRecord(name, values, ttl)];
      }
      r := reply;
    }

    /** `DeleteDomainRecord`: remove the whole rrset; `ok` is false when the call fails. */
    method DeleteDomainRecord(domain: string, name: string, rrsetType: string, fails: bool)
      returns (ok: bool)
      modifies this
      ensures calls == old(calls) + [DeleteCall(RecordKey(domain, name, rrsetType))]
      ensures ok == !fails
      ensures records == if ok then old(records) - {RecordKey(domain, name, rrsetType)} else old(records)
    {
      var key := RecordKey(domain, name, rrsetType);
      calls := calls + [DeleteCall(key)];
      ok := !fails;
      if ok {
        records := records - {key};
      }
    }
  }
}
