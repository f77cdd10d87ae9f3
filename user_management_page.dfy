/**
 * `UserManagementPage.ts`: the admin customer table (a copy of the service's list with a
 * `selected` flag per row), its search filter, the selection checkboxes and the CSV export text.
 */
module UserManagementPage {
  import opened Wrappers
  import opened Text
  import opened Records
  import opened Persistence
  import opened Customers

  /**
   * The search condition: the lowercased term inside the lowercased full name, email or username,
   * or inside the phone number as stored (the phone is not lowercased).
   */
  predicate CustomerMatches(c: Customer, term: string) {
    Contains(Lower(c.fullName), term) || Contains(Lower(c.email), term) ||
    Contains(Lower(c.username), term) || Contains(c.phone, term)
  }

  /** `filteredCustomers`: everything for a blank term, else the matching rows in table order. */
  function FilteredCustomers(customers: seq<Customer>, searchTerm: string): (r: seq<Customer>)
    ensures Trim(searchTerm) == "" ==> r == customers
    ensures Trim(searchTerm) != "" ==>
              (forall c :: c in r <==> c in customers && CustomerMatches(c, Lower(searchTerm))) && IsSubsequence(r, customers)
  {
    if Trim(searchTerm) == "" then customers
    else
      var keep := (c: Customer) => CustomerMatches(c, Lower(searchTerm));
      FilterMembers(customers, keep);
      FilterSubsequence(customers, keep);
      Filter(customers, keep)
  }

  /** `customers.map(customer => ({...customer, selected: flag}))` */
  function AllFlagged(customers: seq<Customer>, flag: bool): (r: seq<Customer>)
    ensures |r| == |customers|
    ensures forall i :: 0 <= i < |customers| ==> r[i] == customers[i].(selected := Some(flag))
  {
    seq(|customers|, i requires 0 <= i < |customers| => customers[i].(selected := Some(flag)))
  }

  /** `customers.map(customer => ({...customer, selected: ids.has(customer.id)}))` */
  function FlaggedBy(customers: seq<Customer>, ids: set<int>): (r: seq<Customer>)
    ensures |r| == |customers|
    ensures forall i :: 0 <= i < |customers| ==> r[i] == customers[i].(selected := Some(customers[i].id in ids))
  {
    seq(|customers|, i requires 0 <= i < |customers| => customers[i].(selected := Some(customers[i].id in ids)))
  }

  /** The rows `exportCustomers` writes: the selected ones in table order, or all when none is selected. */
  function ToExport(customers: seq<Customer>, selected: set<int>): (r: seq<Customer>)
    ensures selected == {} ==> r == customers
    ensures selected != {} ==> (forall c :: c in r <==> c in customers && c.id in selected) && IsSubsequence(r, customers)
  {
    if |selected| > 0 then
      var keep := (c: Customer) => c.id in selected;
      FilterMembers(customers, keep);
      FilterSubsequence(customers, keep);
      Filter(customers, keep)
    else customers
  }

  const Headers := ["ID", "Full Name", "Email", "Phone", "City", "Total Orders", "Total Spent", "Status", "Membership Level"]

  function Quoted(s: string): string {
    "\"" + s + "\"" 
  }

  /** The nine cells of a row: only the full name and the city are put in double quotes. */
  function Cells(c: Customer): (cells: seq<string>)
    ensures |cells| == |Headers|
  {
    [IntToString(c.id), Quoted(c.fullName), c.email, c.phone, Quoted(c.city),
     IntToString(c.totalOrders), IntToString(c.totalSpent), c.status, c.membershipLevel]
  }

  function Row(c: Customer): string {
    Join(Cells(c), ',')
  }

  function Rows(customers: seq<Customer>): (rows: seq<string>)
    ensures |rows| == |customers| && forall i :: 0 <= i < |customers| ==> rows[i] == Row(customers[i])
  {
    seq(|customers|, i requires 0 <= i < |customers| => Row(customers[i]))
  }

  /** `csvContent`: the header line, then one line per exported customer, joined with newlines. */
  function Csv(customers: seq<Customer>, selected: set<int>): string {
    Join([Join(Headers, ',')] + Rows(ToExport(customers, selected)), '\n')
  }

  lemma {:induction false} JoinAvoids(parts: seq<string>, sep: char, c: char)
    requires c != sep && forall k :: 0 <= k < |parts| ==> c !in parts[k]
    ensures c !in Join(parts, sep)
    decreases |parts|
  {
    if |parts| > 1 {
      JoinAvoids(parts[1..], sep, c);
    }
  }

  /** No cell of the row holds a newline. */
  predicate SingleLine(c: Customer) {
    '\n' !in c.fullName && '\n' !in c.email && '\n' !in c.phone && '\n' !in c.city &&
    '\n' !in c.status && '\n' !in c.membershipLevel
  }

  /** No cell of the row holds a comma, so the commas are exactly the cell boundaries. */
  predicate CommaFree(c: Customer) {
    ',' !in c.fullName && ',' !in c.email && ',' !in c.phone && ',' !in c.city &&
    ',' !in c.status && ',' !in c.membershipLevel
  }

  lemma NumbersAvoid(n: int, c: char)
    requires !IsDigit(c) && c != '-'
    ensures c !in IntToString(n)
  {
    var digits := NatToString(if n < 0 then -n else n);
    if n < 0 {
      assert IntToString(n) == "-" + digits;
    }
  }

  /** A row whose text cells hold no newline holds none either. */
  lemma RowSingleLine(c: Customer)
    requires SingleLine(c)
    ensures '\n' !in Row(c)
  {
    NumbersAvoid(c.id, '\n');
    NumbersAvoid(c.totalOrders, '\n');
    NumbersAvoid(c.totalSpent, '\n');
    JoinAvoids(Cells(c), ',', '\n');
  }

  lemma RowsSingleLine(exported: seq<Customer>)
    requires forall c :: c in exported ==> SingleLine(c)
    ensures forall k :: 0 <= k < |exported| ==> '\n' !in Rows(exported)[k]
  {
    forall k | 0 <= k < |exported|
      ensures '\n' !in Rows(exported)[k]
    {
      assert exported[k] in exported;
      RowSingleLine(exported[k]);
    }
  }

  /** Lines joined with newlines, none holding a newline itself, split back into the same lines. */
  lemma LinesSplit(header: string, rows: seq<string>)
    requires '\n' !in header && forall k :: 0 <= k < |rows| ==> '\n' !in rows[k]
    ensures Split(Join([header] + rows, '\n'), '\n') == [header] + rows
  {
    var lines := [header] + rows;
    forall k | 0 <= k < |lines|
      ensures '\n' !in lines[k]
    {
      if k > 0 {
        assert lines[k] == rows[k - 1];
      }
    }
    SplitJoin(lines, '\n');
  }

  /**
   * When no cell holds a newline, the lines of the file are the header and the rows, one per
   * exported customer, in order.
   */
  lemma CsvLines(customers: seq<Customer>, selected: set<int>)
    requires forall c :: c in customers ==> SingleLine(c)
    ensures Split(Csv(customers, selected), '\n') == [Join(Headers, ',')] + Rows(ToExport(customers, selected))
    ensures |Split(Csv(customers, selected), '\n')| == 1 + |ToExport(customers, selected)|
  {
    var exported := ToExport(customers, selected);
    assert forall c :: c in exported ==> SingleLine(c);
    RowsSingleLine(exported);
    HeaderSingleLine();
    LinesSplit(Join(Headers, ','), Rows(exported));
  }

  lemma HeaderSingleLine()
    ensures '\n' !in Join(Headers, ',')
  {
    JoinAvoids(Headers, ',', '\n');
  }

  /**
   * When no cell holds a comma, a row splits back into its nine cells: the id, the quoted full
   * name, the email, the phone, the quoted city, the two totals, the status and the level.
   */
  lemma RowCells(c: Customer)
    requires CommaFree(c)
    ensures Split(Row(c), ',') == Cells(c)
    ensures Split(Row(c), ',')[1] == "\"" + c.fullName + "\"" && Split(Row(c), ',')[4] == "\"" + c.city + "\""
    ensures Split(Row(c), ',')[2] == c.email && Split(Row(c), ',')[3] == c.phone
  {
    NumbersAvoid(c.id, ',');
    NumbersAvoid(c.totalOrders, ',');
    NumbersAvoid(c.totalSpent, ',');
    SplitJoin(Cells(c), ',');
  }

  class UserManagementPageComponent {
    const customerService: CustomerService
    /** The value of the `customers` signal. */
    var customers: seq<Customer>
    var searchTerm: string
    var selectAll: bool
    var selectedCustomers: set<int>

    constructor(customerService: CustomerService)
      ensures this.customerService == customerService
      ensures customers == [] && searchTerm == "" && !selectAll && selectedCustomers == {}
    {
      this.customerService := customerService;
      customers := [];
      searchTerm := "";
      selectAll := false;
      selectedCustomers := {};
    }

    function Filtered(): seq<Customer>
      reads this
    {
      FilteredCustomers(customers, searchTerm)
    }

    /** `loadCustomers`: the service's list with every row unselected. */
    method LoadCustomers()
      modifies this
      ensures customers == AllFlagged(customerService.customers, false)
      ensures searchTerm == old(searchTerm) && selectAll == old(selectAll) && selectedCustomers == old(selectedCustomers)
    {
      customers := AllFlagged(customerService.customers, false);
    }

    /**
     * `toggleSelectAll`, run after the checkbox has set `selectAll`: EVERY row's flag takes the
     * checkbox value, while the id set becomes the ids of the listed (filtered) rows, or empty.
     */
    method ToggleSelectAll()
      modifies this
      ensures customers == AllFlagged(old(customers), selectAll)
      ensures selectedCustomers == if selectAll then KeySet(FilteredCustomers(customers, searchTerm), CustomerId) else {}
      ensures searchTerm == old(searchTerm) && selectAll == old(selectAll)
    {
      customers := AllFlagged(customers, selectAll);
      if selectAll {
        selectedCustomers := KeySet(FilteredCustomers(customers, searchTerm), CustomerId);
      } else {
        selectedCustomers := {};
      }
    }

    /**
     * `toggleCustomerSelection`: exactly that id flips; `selectAll` compares the selection's size
     * with the listed rows; then every row's flag is its id's membership.
     */
    method ToggleCustomerSelection(customerId: int)
      modifies this
      ensures selectedCustomers == Toggled(old(selectedCustomers), customerId)
      ensures selectAll == (|selectedCustomers| == |FilteredCustomers(old(customers), searchTerm)|)
      ensures customers == FlaggedBy(old(customers), selectedCustomers)
      ensures searchTerm == old(searchTerm)
    {
      var listed := |FilteredCustomers(customers, searchTerm)|;
      var selection := selectedCustomers;
      if customerId in selection {
        selection := selection - {customerId};
      } else {
        selection := selection + {customerId};
      }
      var flagged := FlaggedBy(customers, selection);
      selectedCustomers := selection;
      selectAll := |selection| == listed;
      customers := flagged;
    }

    /**
     * `deleteCustomer` after the `confirm` dialog: on a successful delete the id leaves the
     * selection and the table is reloaded; a cancelled dialog or an unknown id changes nothing.
     */
    method DeleteCustomer(customer: Customer, confirmed: bool, writeOk: bool)
      modifies this, customerService, customerService.storage
      ensures !confirmed ==> customers == old(customers) && selectedCustomers == old(selectedCustomers) &&
                             customerService.customers == old(customerService.customers) &&
                             customerService.storage.entries == old(customerService.storage.entries)
      ensures confirmed ==>
                var found := exists i :: 0 <= i < |old(customerService.customers)| && old(customerService.customers)[i].id == customer.id;
                (found ==> customerService.customers == WithoutCustomer(old(customerService.customers), customer.id) &&
                           customerService.storage.entries ==
                             Written(old(customerService.storage.entries), CustomersKey,
                                     customerService.codec.encode(customerService.customers),
                                     customerService.browser && writeOk) &&
                           selectedCustomers == old(selectedCustomers) - {customer.id} &&
                           customers == AllFlagged(customerService.customers, false)) &&
                (!found ==> customerService.customers == old(customerService.customers) &&
                            customerService.storage.entries == old(customerService.storage.entries) &&
                            customers == old(customers) && selectedCustomers == old(selectedCustomers))
      ensures searchTerm == old(searchTerm) && selectAll == old(selectAll)
    {
      if confirmed {
        var success := customerService.DeleteCustomer(customer.id, writeOk);
        if success {
          selectedCustomers := selectedCustomers - {customer.id};
          LoadCustomers();
        }
      }
    }

    /**
     * The text of the downloaded CSV file: when no cell holds a line break, its lines are the
     * header and one row per exported customer.
     */
    function ExportCustomers(): (csv: string)
      reads this
      ensures csv == Csv(customers, selectedCustomers)
      ensures (forall c :: c in customers ==> SingleLine(c)) ==>
                Split(csv, '\n') == [Join(Headers, ',')] + Rows(ToExport(customers, selectedCustomers))
    {
      if forall c :: c in customers ==> SingleLine(c) then
        CsvLines(customers, selectedCustomers);
        Csv(customers, selectedCustomers)
      else
        Csv(customers, selectedCustomers)
    }
  }
}
