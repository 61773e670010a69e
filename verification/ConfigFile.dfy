/** The configuration file of one run, as the next run reads it. */
module ConfigFiles {
  import opened AccountSpec
  import opened AccountLists
  import opened Configs
  import opened ConfigReading
  import opened ConfigReaders
  import opened ConfigRoundTrip
  import opened ConfigWriters

  /**
   cw_save_config, then cr_init into an empty list: whatever flags and configuration the reader had, this is
   the result.
   */
  method SaveThenInit(config: Config, list: AccountList, reader: ConfigReader, memory: nat -> Account)
    requires Complete(config) && list.Valid() && CompleteAccounts(list.contents)
    requires reader.Valid() && reader.list.contents == []
    modifies reader, reader.list, reader.list.nodes
    ensures reader.Valid()
    ensures reader.State() == Reader({}, Reloaded(config), ReloadedAccounts(old(list.contents)))
    ensures reader.State() == Reader({}, config, old(list.contents))
            <==> PrintableConfig(config) && PrintableAccounts(old(list.contents))
  {
    ghost var accounts := list.contents;
    ghost var start := reader.State().(within := reader.within * {ConfigTag});
    var events, ok, givenNull := SaveConfig(config, list, true);
    reader.Init(events, memory);
    RoundTrip(start, config, accounts, memory);
    RoundTripIsExactIff(start, config, accounts, memory);
  }
}
