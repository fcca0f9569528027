/** The weather station of ObserverMethod.cpp: a subject that keeps an ordered
    registry of observers and pushes every new reading to each of them, in
    registry order. Observers are compared by identity (the C++ compares
    `Observer*` pointers), so they are modelled by a type with equality. */
module Observer {
  import opened Wrappers

  /** The three values `setWeatherData` stores. `F` stands for the C++ `float`:
      the station only copies these values and never computes with them. */
  datatype Reading<F> = Reading(temperature: F, humidity: F, pressure: F)

  /** One call `observer->update(temperature, humidity, pressure)`. */
  datatype Delivery<O, F> = Delivery(observer: O, reading: Reading<F>)

  /** The registry `s` with every occurrence of `o` erased and the other entries
      kept in their order: what the erase-remove idiom leaves behind. */
  function Without<O(==)>(s: seq<O>, o: O): (r: seq<O>)
    ensures o !in r
    ensures multiset(r) == multiset(s)[o := 0]
  {
    if s == [] then []
    else
      assert s == [s[0]] + s[1..];
      if s[0] == o then Without(s[1..], o)
      else [s[0]] + Without(s[1..], o)
  }

  /** Erasing distributes over concatenation, so the entries that stay keep
      their relative order. */
  lemma {:induction false} WithoutAppend<O>(a: seq<O>, b: seq<O>, o: O)
    ensures Without(a + b, o) == Without(a, o) + Without(b, o)
  {
    if a == [] {
      assert a + b == b;
    } else {
      assert (a + b)[1..] == a[1..] + b;
      WithoutAppend(a[1..], b, o);
    }
  }

  /** Erasing an observer that is not registered changes nothing. */
  lemma {:induction false} WithoutAbsent<O>(s: seq<O>, o: O)
    requires o !in s
    ensures Without(s, o) == s
  {
    if s != [] {
      WithoutAbsent(s[1..], o);
    }
  }

  /** Erasing twice is the same as erasing once. */
  lemma WithoutIdempotent<O>(s: seq<O>, o: O)
    ensures Without(Without(s, o), o) == Without(s, o)
  {
    WithoutAbsent(Without(s, o), o);
  }

  /** Erasing two observers gives the same registry in either order. */
  lemma {:induction false} WithoutCommutes<O>(s: seq<O>, o: O, p: O)
    ensures Without(Without(s, o), p) == Without(Without(s, p), o)
  {
    if s != [] {
      WithoutCommutes(s[1..], o, p);
    }
  }

  /** The calls one notification pass makes: one per registry entry, in
      registry order, each carrying the same reading. */
  function Deliveries<O, F>(registry: seq<O>, r: Reading<F>): (ds: seq<Delivery<O, F>>)
    ensures |ds| == |registry|
    ensures forall i :: 0 <= i < |ds| ==> ds[i].observer == registry[i] && ds[i].reading == r
  {
    if registry == [] then []
    else [Delivery(registry[0], r)] + Deliveries(registry[1..], r)
  }

  /** The readings a log of calls delivered to `o`, in the order received. */
  function DeliveredTo<O(==), F>(log: seq<Delivery<O, F>>, o: O): seq<Reading<F>>
  {
    if log == [] then []
    else if log[0].observer == o then [log[0].reading] + DeliveredTo(log[1..], o)
    else DeliveredTo(log[1..], o)
  }

  /** In one pass, an observer registered k times receives the reading exactly
      k times, and nothing else. */
  lemma {:induction false} DeliveredOncePerEntry<O, F>(registry: seq<O>, r: Reading<F>, o: O)
    ensures |DeliveredTo(Deliveries(registry, r), o)| == multiset(registry)[o]
    ensures forall i :: 0 <= i < |DeliveredTo(Deliveries(registry, r), o)| ==>
              DeliveredTo(Deliveries(registry, r), o)[i] == r
  {
    if registry != [] {
      DeliveredOncePerEntry(registry[1..], r, o);
      assert registry == [registry[0]] + registry[1..];
    }
  }

  /** An observer that has been removed receives nothing from a pass over the
      registry that removal left behind. */
  lemma RemovedReceivesNothing<O, F>(registry: seq<O>, r: Reading<F>, o: O)
    ensures DeliveredTo(Deliveries(Without(registry, o), r), o) == []
  {
    DeliveredOncePerEntry(Without(registry, o), r, o);
  }

  /** The subject `WeatherStation`. `reading` is `None` until the first
      `setWeatherData`, standing for the three uninitialised float fields;
      `delivered` records every `update` call the station has made. */
  class WeatherStation<O(==), F> {
    var observers: seq<O>
    var reading: Option<Reading<F>>
    ghost var delivered: seq<Delivery<O, F>>

    /** A new station: no observers, no reading, no calls made. */
    constructor ()
      ensures observers == [] && reading == None && delivered == []
    {
      observers := [];
      reading := None;
      delivered := [];
    }

    /** `addObserver`: append, keeping the order and accepting duplicates. */
    method AddObserver(o: O)
      modifies this
      ensures observers == old(observers) + [o]
      ensures reading == old(reading) && delivered == old(delivered)
    {
      observers := observers + [o];
    }

    /** `removeObserver`: `std::remove` moves every entry that differs from `o`
        forward over the erased ones, then `erase` cuts the tail off. */
    method RemoveObserver(o: O)
      modifies this
      ensures observers == Without(old(observers), o)
      ensures reading == old(reading) && delivered == old(delivered)
    {
      var s, s0 := observers, observers;
      var w := 0;
      var i := 0;
      while i < |s|
        invariant w <= i <= |s| == |s0|
        invariant s[..w] == Without(s0[..i], o)
        invariant s[i..] == s0[i..]
        invariant observers == s0 && reading == old(reading) && delivered == old(delivered)
      {
        var x := s[i];
        assert x == s0[i] && s[i + 1..] == s0[i + 1..] by {
          assert s[i..][0] == s0[i..][0] && s[i..][1..] == s0[i..][1..];
        }
        assert s0[..i + 1] == s0[..i] + [x];
        WithoutAppend(s0[..i], [x], o);
        assert [x][1..] == [];
        if x != o {
          assert Without(s0[..i + 1], o) == s[..w] + [x];
          assert s[w := x][..w + 1] == s[..w] + [x];
          assert s[w := x][i + 1..] == s[i + 1..];
          s := s[w := x];
          w := w + 1;
        } else {
          assert Without(s0[..i + 1], o) == s[..w];
        }
        i := i + 1;
      }
      assert s0[..i] == s0;
      observers := s[..w];
    }

    /** `notifyObservers`: one `update` call per registry entry, in registry
        order, each with the stored reading. The C++ reads uninitialised floats
        if no reading was ever set; the model requires one. */
    method NotifyObservers()
      requires reading.Some?
      modifies this
      ensures observers == old(observers) && reading == old(reading)
      ensures delivered == old(delivered) + Deliveries(observers, reading.value)
    {
      for i := 0 to |observers|
        invariant delivered == old(delivered) + Deliveries(observers[..i], reading.value)
      {
        assert Deliveries(observers[..i + 1], reading.value)
            == Deliveries(observers[..i], reading.value) + [Delivery(observers[i], reading.value)];
        delivered := delivered + [Delivery(observers[i], reading.value)];
      }
      assert observers[..|observers|] == observers;
    }

    /** `setWeatherData`: store all three values, then notify, so every call of
        this pass carries exactly the new reading; the registry is untouched. */
    method SetWeatherData(temperature: F, humidity: F, pressure: F)
      modifies this
      ensures observers == old(observers)
      ensures reading == Some(Reading(temperature, humidity, pressure))
      ensures delivered == old(delivered) + Deliveries(observers, Reading(temperature, humidity, pressure))
    {
      reading := Some(Reading(temperature, humidity, pressure));
      NotifyObservers();
    }
  }

  /** The driver: phone and desktop are registered in that order, two readings
      go to both, desktop is removed, and the third reading goes to phone only. */
  method WeatherDemo<O(==), F>(phone: O, desktop: O, r1: Reading<F>, r2: Reading<F>, r3: Reading<F>)
    returns (registry: seq<O>, ghost log: seq<Delivery<O, F>>)
    requires phone != desktop
    ensures registry == [phone]
    ensures log == [Delivery(phone, r1), Delivery(desktop, r1),
                    Delivery(phone, r2), Delivery(desktop, r2),
                    Delivery(phone, r3)]
    ensures DeliveredTo(log, phone) == [r1, r2, r3] && DeliveredTo(log, desktop) == [r1, r2]
  {
    var station := new WeatherStation<O, F>();
    station.AddObserver(phone);
    station.AddObserver(desktop);
    station.SetWeatherData(r1.temperature, r1.humidity, r1.pressure);
    station.SetWeatherData(r2.temperature, r2.humidity, r2.pressure);
    assert Deliveries([phone, desktop], r1) == [Delivery(phone, r1), Delivery(desktop, r1)];
    assert Deliveries([phone, desktop], r2) == [Delivery(phone, r2), Delivery(desktop, r2)];
    assert Without([phone, desktop], desktop) == [phone] by {
      assert [phone, desktop][1..] == [desktop];
      assert Without([desktop], desktop) == [];
    }
    station.RemoveObserver(desktop);
    assert Deliveries([phone], r3) == [Delivery(phone, r3)];
    station.SetWeatherData(r3.temperature, r3.humidity, r3.pressure);
    registry := station.observers;
    log := station.delivered;
    assert log[1..][1..][1..][1..][1..] == [];
    assert DeliveredTo(log[1..][1..][1..][1..], desktop) == [];
    assert DeliveredTo(log[1..][1..][1..], desktop) == [r2];
    assert DeliveredTo(log[1..][1..], desktop) == [r2];
    assert DeliveredTo(log[1..], desktop) == [r1, r2];
    assert DeliveredTo(log[1..][1..][1..][1..], phone) == [r3];
    assert DeliveredTo(log[1..][1..][1..], phone) == [r3];
    assert DeliveredTo(log[1..][1..], phone) == [r2, r3];
  }
}
