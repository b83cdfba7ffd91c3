/** The host's option table (`get_option`, `update_option`, `delete_option`),
    and the sentinel-based existence test the plugin builds on it. */
module Options {
  import opened PhpValues

  /** One call the plugin makes on the option table. */
  datatype OptionOp = Update(key: string, value: Value) | Delete(key: string)

  /** `get_option($key, $default)`: the stored value, or the default when the
      option does not exist. */
  function GetOption(rows: map<string, Value>, key: string, default: Value): (r: Value)
    ensures key in rows ==> r == rows[key]
    ensures key !in rows ==> r == default
  {
    if key in rows then rows[key] else default
  }

  /** The "unlikely default" that `option_exists` passes to `get_option`. */
  const Sentinel: string := "fenfgehgefdfdjgrkj"

  /** `option_exists($key)`: false exactly when reading the option with the
      sentinel as default gives the sentinel back, so an option whose stored
      value is the sentinel string reads as absent. */
  function OptionExists(rows: map<string, Value>, key: string): (r: bool)
    ensures r <==> key in rows && rows[key] != Str(Sentinel)
  {
    GetOption(rows, key, Str(Sentinel)) != Str(Sentinel)
  }

  /** The option table of the site, with the record of every write the plugin
      makes to it. */
  class OptionTable {
    var rows: map<string, Value>
    var log: seq<OptionOp>

    constructor (initial: map<string, Value>)
      ensures rows == initial && log == []
    {
      rows := initial;
      log := [];
    }

    method Get(key: string, default: Value) returns (v: Value)
      ensures v == GetOption(rows, key, default)
    {
      v := if key in rows then rows[key] else default;
    }

    /** `update_option`: adds or overwrites the whole value of one option. */
    method Update(key: string, value: Value)
      modifies this
      ensures rows == old(rows)[key := value]
      ensures log == old(log) + [OptionOp.Update(key, value)]
    {
      rows := rows[key := value];
      log := log + [OptionOp.Update(key, value)];
    }

    /** `delete_option`. */
    method Delete(key: string)
      modifies this
      ensures rows == old(rows) - {key}
      ensures log == old(log) + [OptionOp.Delete(key)]
    {
      rows := rows - {key};
      log := log + [OptionOp.Delete(key)];
    }
  }
}
