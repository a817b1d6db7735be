/** The database file name handed to `dbm.open` in `main` (faucet.py lines 102-104):
    dbm adds its own extension, so a trailing ".db" on the argument is dropped. */
module Startup {

  const DbSuffix: string := ".db"

  predicate EndsWithDb(s: string)
  {
    |s| >= |DbSuffix| && s[|s| - |DbSuffix|..] == DbSuffix
  }

  /** `args.database`, less a trailing ".db" if it has one. */
  function DatabaseName(fname: string): (name: string)
    ensures EndsWithDb(fname) ==> name + DbSuffix == fname
    ensures !EndsWithDb(fname) ==> name == fname
  {
    if EndsWithDb(fname) then fname[..|fname| - |DbSuffix|] else fname
  }

  /** Appending ".db" and stripping it again gives the name back. */
  lemma StripAppendedSuffix(base: string)
    ensures DatabaseName(base + DbSuffix) == base
  {
  }

  /** Only one suffix is stripped: the default "faucet.db" becomes "faucet",
      and "faucet.db.db" becomes "faucet.db". */
  lemma StripsOnce()
    ensures DatabaseName("faucet.db") == "faucet"
    ensures DatabaseName("faucet.db.db") == "faucet.db"
    ensures DatabaseName("faucet") == "faucet"
  {
  }
}
