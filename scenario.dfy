/**
 * A client of the model, following the repository's own test of a factory
 * loader and its clone: what a caller can conclude from the contracts alone.
 */
module Scenario {
  import opened Wrappers
  import opened Values
  import opened Cache
  import opened Events
  import opened Paths
  import opened Loader

  /** A factory loader reads through its cache; its clone reads its own file. */
  method FactoryThenClone()
  {
    var table := new Table();
    var clock := new ChangeClock(0);
    var paths := new PathState();
    var one := Float64(0x3FF0_0000_0000_0000);
    var main: Lookup := (k, key) =>
      if key == "hello" && k in {AnyKind, StringKind} then Str("word")
      else if key == "foo" && k in {AnyKind, Float64Kind} then one
      else ZeroOf(k);
    var other: Lookup := (k, key) => if key == "foo" && k in {AnyKind, Float64Kind} then one else ZeroOf(k);
    var disk: Disk := (dirs, name) =>
      if name == "config.yml" then Some(main) else if name == "test" then Some(other) else None;

    var r := CreateYamlFactory("test", "config.yml", "yaml_config", Some("/src"),
                               [], paths, table, clock, disk);
    var yc := r.value;
    assert yc.c.prefix == "config.yml_";
    var w := yc.GetAs(StringKind, "hello");
    assert w == Ok(Str("word")) && yc.source.calls == 1;
    w := yc.GetAs(StringKind, "hello");
    assert w == Ok(Str("word")) && yc.source.calls == 1;

    var cr := yc.Clone("test", disk);
    var cc := cr.value;
    var f := cc.GetAs(Float64Kind, "foo");
    assert f == Ok(one) && cc.source.calls == 1;
  }

  /** A write purges the namespace; its echo 4 ms later is dropped. */
  method WriteThenEcho()
  {
    var table := new Table();
    var clock := new ChangeClock(0);
    var source := new RawSource([], "config", "yaml", (k, key) => if k in {AnyKind, StringKind} then Str("word") else ZeroOf(k));
    var c := new Container("config_", table);
    var y := new YmlLoader(source, c, clock);
    var w := y.GetAs(StringKind, "hello");
    assert Qualify("config_", "hello") == "config_" + "hello" == "config_hello";
    assert "config_hello" in table.entries;

    OpStringIsWrite(WriteOnly);
    var reloaded := y.OnConfigChange(20, 21, WriteOnly);
    assert reloaded && "config_hello" !in table.entries;
    var echo := y.OnConfigChange(25, 25, WriteOnly);
    assert !echo && clock.lastChangeTime == 21;
  }
}
