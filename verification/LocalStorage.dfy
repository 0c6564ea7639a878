/** The cached store behind `useLocalStorage`: one parsed value kept for the raw string it came from. */
module LocalStorage {
  import opened Wrappers

  /** A value with an identity: two parses of one string are different cells. */
  class Cell<T(==)> {
    const value: T

    constructor (value: T)
      ensures this.value == value
    {
      this.value := value;
    }
  }

  /** The browser's storage, which other tabs change too. Reads may be refused, writes may fail. */
  class Browser {
    var items: map<string, string>
    var readable: bool
    var writable: bool

    constructor ()
      ensures items == map[] && readable && writable
    {
      items, readable, writable := map[], true, true;
    }

    function GetItem(key: string): Option<string>
      reads this
    {
      if key in items then Some(items[key]) else None
    }
  }

  function ParseOr<T>(raw: Option<string>, parse: string -> Option<T>, default: T): T {
    match raw
    case None => default
    case Some(text) =>
      match parse(text)
      case Some(value) => value
      case None => default
  }

  class Store<T(==)> {
    const key: Option<string>
    const default: Cell<T>
    const parse: string -> Option<T>
    const stringify: T -> string
    const browser: Browser
    var cachedRaw: Option<string>
    var cachedValue: Cell<T>
    var memoryValue: Cell<T>
    var listeners: set<nat>

    /** Coherence: the cached value is the parse of the cached raw string, or the default. */
    ghost predicate Coherent()
      reads this
    {
      cachedValue.value == ParseOr(cachedRaw, parse, default.value)
    }

    constructor (
      key: Option<string>, default: Cell<T>, parse: string -> Option<T>, stringify: T -> string,
      browser: Browser)
      ensures Coherent() && cachedRaw == None && cachedValue == default && memoryValue == default
      ensures this.key == key && this.default == default && this.browser == browser
      ensures this.parse == parse && this.stringify == stringify && listeners == {}
    {
      this.key, this.default, this.parse, this.stringify, this.browser :=
        key, default, parse, stringify, browser;
      cachedRaw, cachedValue, memoryValue, listeners := None, default, default, {};
    }

    /** The value is the parse of what is stored, and the cell is the one returned before for as long as
        the raw string is the same. */
    method Get() returns (cell: Cell<T>)
      requires Coherent()
      modifies this`cachedRaw, this`cachedValue
      ensures Coherent()
      ensures key.None? ==> cell == memoryValue
      ensures key.Some? && !browser.readable ==> cell == old(cachedValue)
      ensures key.Some? && browser.readable ==>
        && cell.value == ParseOr(browser.GetItem(key.value), parse, default.value)
        && cachedRaw == browser.GetItem(key.value) && cell == cachedValue
        && (browser.GetItem(key.value) == old(cachedRaw) ==> cell == old(cachedValue))
        && (key.value !in browser.items || parse(browser.items[key.value]).None? ==> cell.value == default.value)
        && (key.value in browser.items && parse(browser.items[key.value]).Some? ==>
              parse(browser.items[key.value]) == Some(cell.value))
      ensures key.None? || !browser.readable ==>
        cachedRaw == old(cachedRaw) && cachedValue == old(cachedValue)
    {
      if key.None? {
        return memoryValue;
      }
      if !browser.readable {
        return cachedValue;
      }
      var raw := browser.GetItem(key.value);
      if raw == cachedRaw {
        return cachedValue;
      }
      cell := default;
      if raw.Some? {
        var parsed := parse(raw.value);
        if parsed.Some? {
          cell := new Cell(parsed.value);
        }
      }
      cachedRaw, cachedValue := raw, cell;
    }

    /** Every listener is told, written or not. */
    method Set(cell: Cell<T>) returns (notified: set<nat>)
      requires Coherent()
      modifies this`memoryValue, browser`items
      ensures Coherent() && notified == listeners
      ensures key.None? ==> memoryValue == cell && browser.items == old(browser.items)
      ensures key.Some? ==>
        && memoryValue == old(memoryValue)
        && browser.items ==
           if browser.writable then old(browser.items)[key.value := stringify(cell.value)]
           else old(browser.items)
    {
      if key.None? {
        memoryValue := cell;
      } else if browser.writable {
        browser.items := browser.items[key.value := stringify(cell.value)];
      }
      notified := listeners;
    }

    method Subscribe(listener: nat)
      modifies this`listeners
      ensures listeners == old(listeners) + {listener}
    {
      listeners := listeners + {listener};
    }

    method Unsubscribe(listener: nat)
      modifies this`listeners
      ensures listeners == old(listeners) - {listener}
    {
      listeners := listeners - {listener};
    }

    /** A storage event concerns this store when it names its key or, after a clear, no key. */
    method OnStorage(eventKey: Option<string>) returns (notified: set<nat>)
      ensures notified == if key.Some? && (eventKey.None? || eventKey == key) then listeners else {}
    {
      if key.None? || (eventKey.Some? && eventKey != key) {
        return {};
      }
      notified := listeners;
    }

    /** A successful write is what the next read parses back, and reading again returns the same cell. */
    method SetThenGet(cell: Cell<T>) returns (first: Cell<T>, second: Cell<T>)
      requires Coherent()
      requires key.Some? ==> browser.readable && browser.writable
      requires parse(stringify(cell.value)) == Some(cell.value)
      modifies this, browser
      ensures Coherent() && first.value == cell.value && second == first
      ensures key.None? ==> first == cell
    {
      var _ := Set(cell);
      first := Get();
      second := Get();
    }
  }
}
