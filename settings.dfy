/**
 * The shape of the `deployer` configuration array that the orchestrator reads,
 * and the defaults of the published configuration file.
 *
 * The `steps` entry is a PHP array, which is an ORDERED map from string keys to
 * values; it is modelled as the list of its key/value entries, keys distinct.
 */
module Settings {
  import opened Wrappers

  datatype Server = Server(host: string, username: string, path: string)

  datatype Permissions = Permissions(files: string, directories: string, storage: string, bootstrapCache: string)

  datatype Hooks = Hooks(before: seq<string>, after: seq<string>)

  /** A PHP array of step flags, in the order its entries were written. */
  type Flags = seq<(string, bool)>

  datatype Config = Config(server: Server, branch: string, steps: Flags, hooks: Hooks, permissions: Permissions)

  /** Every key appears once, as in any PHP array. */
  ghost predicate UniqueKeys(flags: Flags)
  {
    forall i, j :: 0 <= i < j < |flags| ==> flags[i].0 != flags[j].0
  }

  /** `$flags[$key]`: the value stored under `key`, if the key exists. */
  function Lookup(flags: Flags, key: string): Option<bool>
  {
    if flags == [] then None
    else if flags[0].0 == key then Some(flags[0].1)
    else Lookup(flags[1..], key)
  }

  /** With distinct keys, a lookup finds exactly the entries of the array. */
  lemma {:induction false} LookupFindsEntry(flags: Flags, key: string, on: bool)
    requires UniqueKeys(flags)
    ensures Lookup(flags, key) == Some(on) <==> (key, on) in flags
    ensures Lookup(flags, key) == None <==> forall e :: e in flags ==> e.0 != key
  {
    if flags != [] {
      assert UniqueKeys(flags[1..]) by {
        forall i, j | 0 <= i < j < |flags[1..]|
          ensures flags[1..][i].0 != flags[1..][j].0
        {
          assert flags[1..][i] == flags[i + 1] && flags[1..][j] == flags[j + 1];
        }
      }
      LookupFindsEntry(flags[1..], key, on);
      assert flags == [flags[0]] + flags[1..];
      if flags[0].0 == key {
        forall e | e in flags[1..] ensures e.0 != key {
          var j :| 0 <= j < |flags[1..]| && flags[1..][j] == e;
          assert flags[j + 1] == e;
        }
      }
    }
  }

  /** The order in which the entries of a PHP array were written does not change a lookup. */
  lemma LookupIgnoresOrder(a: Flags, b: Flags, key: string)
    requires UniqueKeys(a) && UniqueKeys(b)
    requires forall e :: e in a <==> e in b
    ensures Lookup(a, key) == Lookup(b, key)
  {
    LookupFindsEntry(a, key, true);
    LookupFindsEntry(b, key, true);
    LookupFindsEntry(a, key, false);
    LookupFindsEntry(b, key, false);
    match Lookup(a, key)
    case Some(on) =>
      assert (key, on) in a;
      assert (key, on) in b;
    case None =>
      forall e | e in b ensures e.0 != key {
        assert e in a;
      }
  }

  /** The `steps` array of the published configuration file. */
  const DefaultSteps: Flags := [
    ("composer_install", true),
    ("npm_install", false),
    ("npm_build", false),
    ("artisan_migrate", true),
    ("artisan_storage_link", true),
    ("artisan_cache_clear", true),
    ("artisan_config_cache", true),
    ("artisan_route_cache", true),
    ("artisan_view_cache", true)
  ]

  /** The `permissions` array of the published configuration file. */
  const DefaultPermissions := Permissions("644", "755", "775", "775")

  /**
   * The published configuration; host, username and path come from the
   * environment (`DO_HOST`, `DO_USERNAME`, `DO_PATH`, the last defaulting to
   * "/var/www/html"), so they are parameters here.
   */
  function DefaultConfig(host: string, username: string, path: string): Config
  {
    Config(Server(host, username, path), "main", DefaultSteps, Hooks([], []), DefaultPermissions)
  }
}
