/**
 The records shared by the catalog, the cart, the checkout and the backend
 (src/types/sales.ts). Currency amounts are exact reals; counts are integers.
 */
module SalesTypes {
  import opened Wrappers

  /** One size of a product, with its own price, stock and sku. */
  datatype ProductVariant = ProductVariant(size: string, price: real, stock: int, sku: string)

  /** A catalog product with its ordered list of variants. */
  datatype Product = Product(
    id: string,
    name: string,
    description: string,
    image: string,
    category: string,
    variants: seq<ProductVariant>)

  /** A cart line: a snapshot of the chosen product and variant with a quantity. */
  datatype CartItem = CartItem(
    productId: string,
    productName: string,
    variant: ProductVariant,
    quantity: int,
    image: string)

  /** An invoice line as stored with the invoice. */
  datatype InvoiceItem = InvoiceItem(name: string, qty: int, price: real, tamount: real)

  datatype InvoiceStatus = Pending | Paid

  /** A stored invoice; optional fields are `None` when absent. */
  datatype Invoice = Invoice(
    id: Option<string>,
    invoiceNumber: string,
    items: seq<InvoiceItem>,
    subtotal: real,
    tax: real,
    total: real,
    status: InvoiceStatus,
    customerName: Option<string>,
    customerPhone: Option<string>,
    salesmanId: Option<string>,
    createdAt: string)

  /** The derived figures of a cart. */
  datatype Totals = Totals(subtotal: real, tax: real, total: real, itemCount: int)
}
