/** The page title of `AdminLayout.ts`, recomputed from the router url after each navigation. */
module AdminLayout {
  import opened Text

  const ProductManagement := "Product Management"
  const OrderManagement := "Order Management"
  const CustomerManagement := "Customer Management"
  const AdminPanel := "Admin Panel"

  /** `updatePageTitle`'s chain: the first path fragment the url contains decides. */
  function PageTitle(url: string): (title: string)
    ensures title in {ProductManagement, OrderManagement, CustomerManagement, AdminPanel}
    ensures title == ProductManagement <==> Contains(url, "/admin/products")
    ensures title == OrderManagement <==> !Contains(url, "/admin/products") && Contains(url, "/admin/orders")
    ensures title == CustomerManagement <==>
              !Contains(url, "/admin/products") && !Contains(url, "/admin/orders") && Contains(url, "/admin/users")
    ensures title == AdminPanel <==>
              !Contains(url, "/admin/products") && !Contains(url, "/admin/orders") && !Contains(url, "/admin/users")
  {
    if Contains(url, "/admin/products") then ProductManagement
    else if Contains(url, "/admin/orders") then OrderManagement
    else if Contains(url, "/admin/users") then CustomerManagement
    else AdminPanel
  }

  /** Containment, not prefix: a products path wins wherever it appears, even after an orders path. */
  lemma ProductsTakesPrecedence(a: string, b: string)
    ensures PageTitle(a + "/admin/orders" + b + "/admin/products") == ProductManagement
  {
    var url := a + "/admin/orders" + b + "/admin/products";
    assert OccursAt(url, "/admin/products", |url| - 15);
  }

  class AdminLayoutComponent {
    var pageTitle: string

    /** The constructor already sets the title from the url it starts on. */
    constructor(url: string)
      ensures pageTitle == PageTitle(url)
    {
      pageTitle := PageTitle(url);
    }

    /** Run on every `NavigationEnd`, with the router's new url. */
    method UpdatePageTitle(url: string)
      modifies this
      ensures pageTitle == PageTitle(url)
    {
      if Contains(url, "/admin/products") {
        pageTitle := ProductManagement;
      } else if Contains(url, "/admin/orders") {
        pageTitle := OrderManagement;
      } else if Contains(url, "/admin/users") {
        pageTitle := CustomerManagement;
      } else {
        pageTitle := AdminPanel;
      }
    }
  }
}
