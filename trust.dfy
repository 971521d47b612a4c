/**
 * The `trust add | remove | list` commands over the persisted trust list.
 */
module TrustCommand {
  import opened Text
  import opened ConfigStore

  datatype AddNotice = AlreadyTrusted | AddedTrusted
  datatype RemoveNotice = RemovedTrusted | NotInList

  /** `trust add`: a name already trusted is reported and the file left alone. */
  method Add(store: ConfigFile, package: string) returns (notice: AddNotice)
    modifies store
    ensures notice == AlreadyTrusted <==> IsTrusted(old(store.Config()), package)
    ensures notice == AlreadyTrusted ==> store.content == old(store.content)
    ensures notice == AddedTrusted ==>
      store.Holds(old(store.Config())["trusted" := Join(old(Trusted(store.Config())) + [package], ',')])
    ensures PlainNames(old(Trusted(store.Config()))) && PlainName(package) ==>
      IsTrusted(store.Config(), package) &&
      Trusted(store.Config()) == AddName(old(Trusted(store.Config())), package)
  {
    var config := store.GetConfig();
    if IsTrusted(config, package) {
      notice := AlreadyTrusted;
    } else {
      store.AddTrusted(package);
      notice := AddedTrusted;
    }
  }

  /** `trust remove`: only a trusted name causes a write. */
  method Remove(store: ConfigFile, package: string) returns (notice: RemoveNotice)
    modifies store
    ensures notice == RemovedTrusted <==> IsTrusted(old(store.Config()), package)
    ensures notice == NotInList ==> store.content == old(store.content)
    ensures notice == RemovedTrusted && PlainNames(old(Trusted(store.Config()))) ==>
      !IsTrusted(store.Config(), package) &&
      Trusted(store.Config()) == RemoveName(old(Trusted(store.Config())), package)
  {
    var config := store.GetConfig();
    if IsTrusted(config, package) {
      store.RemoveTrusted(package);
      notice := RemovedTrusted;
    } else {
      notice := NotInList;
    }
  }

  datatype Listing = NoTrustedPackages | TrustedPackages(names: seq<string>)

  /** `trust list`: the stored names in stored order, or the empty notice. */
  method List(store: ConfigFile) returns (listing: Listing)
    ensures listing == NoTrustedPackages <==> Trusted(store.Config()) == []
    ensures listing.TrustedPackages? ==> listing.names == Trusted(store.Config())
  {
    var config := store.GetConfig();
    var trusted := Trusted(config);
    if trusted == [] {
      listing := NoTrustedPackages;
    } else {
      listing := TrustedPackages(trusted);
    }
  }

  /**
   * `trust add` then `trust remove` of a fresh plain name gives back the list it
   * started from, for a list of plain names.
   */
  method AddThenRemove(store: ConfigFile, package: string)
    modifies store
    requires PlainNames(Trusted(store.Config())) && PlainName(package)
    requires !IsTrusted(store.Config(), package)
    ensures Trusted(store.Config()) == old(Trusted(store.Config()))
  {
    ghost var before := Trusted(store.Config());
    var added := Add(store, package);
    assert Trusted(store.Config()) == before + [package];
    assert PlainNames(before + [package]);
    var removed := Remove(store, package);
    RemoveAfterAdd(before, package);
  }
}
