/** The DynamoDB table both handlers use as their persistent cache tier,
    keyed by date string. Whether a call succeeds is an input. */
module Store {
  import opened Common

  /** One access to the table, as the handler issued it. */
  datatype Access = Read(key: string) | Write(key: string, item: Item)

  /** What a `GetItem` call yields. */
  datatype GetResult = Found(item: Item) | Missing | GetFailed(detail: string)

  class Table {
    /** The items of the table, by date key. */
    var items: map<string, Item>
    /** Every read and write issued against the table, in order. */
    ghost var log: seq<Access>

    constructor (contents: map<string, Item>)
      ensures items == contents && log == []
    {
      items := contents;
      log := [];
    }

    /** Look `key` up; a faulty call yields its error instead. */
    method GetItem(key: string, outcome: StoreOutcome) returns (r: GetResult)
      modifies this`log
      ensures log == old(log) + [Read(key)]
      ensures outcome.Fault? ==> r == GetFailed(outcome.detail)
      ensures outcome.Success? && key in items ==> r == Found(items[key])
      ensures outcome.Success? && key !in items ==> r == Missing
    {
      log := log + [Read(key)];
      if outcome.Fault? {
        r := GetFailed(outcome.detail);
      } else if key in items {
        r := Found(items[key]);
      } else {
        r := Missing;
      }
    }

    /** Store `item` under `key`, replacing any earlier item; a faulty call
        leaves the table as it was and yields its error. */
    method PutItem(key: string, item: Item, outcome: StoreOutcome) returns (err: Option<string>)
      modifies this
      ensures log == old(log) + [Write(key, item)]
      ensures outcome.Success? ==> items == old(items)[key := item] && err == None
      ensures outcome.Fault? ==> items == old(items) && err == Some(outcome.detail)
    {
      log := log + [Write(key, item)];
      if outcome.Success? {
        items := items[key := item];
        err := None;
      } else {
        err := Some(outcome.detail);
      }
    }
  }
}
