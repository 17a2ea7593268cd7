/**
 * The fixed column table of the row flattener: for every invoice-level column the group
 * and key it is read from, for every line-item column the item key, and the exact column
 * headers (spellings such as "Vehical Number" included). Column headers are distinct,
 * which `ColumnNamed` (header -> column) witnesses.
 */
module Columns {
  import opened Wrappers

  /** The six invoice-level groups of the reply. */
  datatype Group = HeaderGroup | SupplierGroup | BuyerGroup | LogisticsGroup | EWayBillGroup | SummaryGroup

  /** The key under which a group appears in the reply. */
  function GroupKey(g: Group): string {
    match g
    case HeaderGroup => "invoiceHeader"
    case SupplierGroup => "supplierDetails"
    case BuyerGroup => "buyerDetails"
    case LogisticsGroup => "logisticsDetails"
    case EWayBillGroup => "eWayBillDetails"
    case SummaryGroup => "summary"
  }

  const LineItemsKey: string := "lineItems"

  /** The invoiceHeader fields that feed a column. */
  datatype HeaderField =
    | InvoiceDate | InvoiceNo | SupplierInvoiceNo | SupplierInvoiceDate | VoucherType | OrderNo
    | OrderDate | OrderDueDate | DocumentType | SubType | ReceiptNoteNo | ReceiptNoteDate

  /** The supplierDetails fields that feed a column. */
  datatype SupplierField =
    | SupplierName | SupplierAddress1 | SupplierAddress2 | SupplierAddress3 | SupplierPincode
    | SupplierState | PlaceOfSupply | Country | SupplierGstin | GstRegistrationType

  /** The buyerDetails fields that feed a column. */
  datatype BuyerField =
    | BuyerName | BuyerAddress1 | BuyerAddress2 | BuyerAddress3 | BuyerPincode | BuyerState
    | BuyerPlace | BuyerGstin

  /** The logisticsDetails fields that feed a column. */
  datatype LogisticsField =
    | LrNo | DespatchThrough | Destination | TransportMode | Distance | TransporterName
    | VehicleNumber | VehicleType | DocAirWayBillNo | DocDate | TransporterId

  /** The eWayBillDetails fields that feed a column. */
  datatype EWayBillField =
    | EWayBillNo | EWayBillDate | ConsolidatedEWayBillNo | ConsolidatedEWayDate
    | StatusOfEWayBill

  /** The summary fields that feed a column. */
  datatype SummaryField =
    | CgstLedger | CgstAmount | SgstLedger | SgstAmount | IgstLedger | IgstAmount | CessLedger
    | CessAmount | RoundOffLedger | RoundOffAmount | Narration | TermsOfPayment
    | OtherReference | TermsOfDelivery | PurchaseLedger | CostCenterGodown

  /** The line-item fields, each feeding one column. */
  datatype ItemField =
    | ItemName | HsnCode | ItemDescription | TaxRate | BatchNo | MfgDate | ExpDate | Qty | Uom
    | Rate | Discount | Amount

  /** An invoice-level column, named after the group field it is read from. */
  datatype BaseColumn =
    | Header(header: HeaderField)
    | Supplier(supplier: SupplierField)
    | Buyer(buyer: BuyerField)
    | Logistics(logistics: LogisticsField)
    | EWayBill(eWayBill: EWayBillField)
    | Summary(summary: SummaryField)

  /** Every column of a flat row. */
  datatype Column = BaseCol(base: BaseColumn) | ItemCol(item: ItemField)

  function GroupOf(c: BaseColumn): Group {
    match c
    case Header(_) => HeaderGroup
    case Supplier(_) => SupplierGroup
    case Buyer(_) => BuyerGroup
    case Logistics(_) => LogisticsGroup
    case EWayBill(_) => EWayBillGroup
    case Summary(_) => SummaryGroup
  }

  /** The key a base column reads inside its group. */
  function Key(c: BaseColumn): string {
    match c
    case Header(f) => (match f
      case InvoiceDate => "invoiceDate"
      case InvoiceNo => "invoiceNo"
      case SupplierInvoiceNo => "supplierInvoiceNo"
      case SupplierInvoiceDate => "supplierInvoiceDate"
      case VoucherType => "voucherType"
      case OrderNo => "orderNo"
      case OrderDate => "orderDate"
      case OrderDueDate => "orderDueDate"
      case DocumentType => "documentType"
      case SubType => "subType"
      case ReceiptNoteNo => "receiptNoteNo"
      case ReceiptNoteDate => "receiptNoteDate")
    case Supplier(f) => (match f
      case SupplierName => "name"
      case SupplierAddress1 => "address1"
      case SupplierAddress2 => "address2"
      case SupplierAddress3 => "address3"
      case SupplierPincode => "pincode"
      case SupplierState => "state"
      case PlaceOfSupply => "placeOfSupply"
      case Country => "country"
      case SupplierGstin => "gstin"
      case GstRegistrationType => "gstRegistrationType")
    case Buyer(f) => (match f
      case BuyerName => "name"
      case BuyerAddress1 => "address1"
      case BuyerAddress2 => "address2"
      case BuyerAddress3 => "address3"
      case BuyerPincode => "pincode"
      case BuyerState => "state"
      case BuyerPlace => "place"
      case BuyerGstin => "gstin")
    case Logistics(f) => (match f
      case LrNo => "lrNo"
      case DespatchThrough => "despatchThrough"
      case Destination => "destination"
      case TransportMode => "transportMode"
      case Distance => "distance"
      case TransporterName => "transporterName"
      case VehicleNumber => "vehicleNumber"
      case VehicleType => "vehicleType"
      case DocAirWayBillNo => "docAirWayBillNo"
      case DocDate => "docDate"
      case TransporterId => "transporterID")
    case EWayBill(f) => (match f
      case EWayBillNo => "eWayBillNo"
      case EWayBillDate => "eWayBillDate"
      case ConsolidatedEWayBillNo => "consolidatedEWayBillNo"
      case ConsolidatedEWayDate => "consolidatedEWayDate"
      case StatusOfEWayBill => "statusOfEWayBill")
    case Summary(f) => (match f
      case CgstLedger => "cgstLedger"
      case CgstAmount => "cgstAmount"
      case SgstLedger => "sgstLedger"
      case SgstAmount => "sgstAmount"
      case IgstLedger => "igstLedger"
      case IgstAmount => "igstAmount"
      case CessLedger => "cessLedger"
      case CessAmount => "cessAmount"
      case RoundOffLedger => "roundOffLedger"
      case RoundOffAmount => "roundOffAmount"
      case Narration => "narration"
      case TermsOfPayment => "termsOfPayment"
      case OtherReference => "otherReference"
      case TermsOfDelivery => "termsOfDelivery"
      case PurchaseLedger => "purchaseLedger"
      case CostCenterGodown => "costCenterGodown")
  }

  /** The column header of a base column. */
  function BaseColumnName(c: BaseColumn): string {
    match c
    case Header(f) => (match f
      case InvoiceDate => "Invoice Date"
      case InvoiceNo => "Invoice No"
      case SupplierInvoiceNo => "Supplier Invoice No"
      case SupplierInvoiceDate => "Supplier Invoice Date"
      case VoucherType => "Voucher Type"
      case OrderNo => "Order No"
      case OrderDate => "Order Date"
      case OrderDueDate => "Order Due Date"
      case DocumentType => "Document Type"
      case SubType => "Sub Type"
      case ReceiptNoteNo => "Receipt Note No"
      case ReceiptNoteDate => "Receipt Note Date")
    case Supplier(f) => (match f
      case SupplierName => "Supplier Name"
      case SupplierAddress1 => "Address 1"
      case SupplierAddress2 => "Address 2"
      case SupplierAddress3 => "Address 3"
      case SupplierPincode => "Supplier Pincode"
      case SupplierState => "State"
      case PlaceOfSupply => "Place of Supply"
      case Country => "Country"
      case SupplierGstin => "GSTIN/UIN"
      case GstRegistrationType => "GST Registration Type")
    case Buyer(f) => (match f
      case BuyerName => "Consignor From Name"
      case BuyerAddress1 => "Consignor From Add 1"
      case BuyerAddress2 => "Consignor From Add 2"
      case BuyerAddress3 => "Consignor From Add 3"
      case BuyerPincode => "Consignor From Pincode"
      case BuyerState => "Consignor From State"
      case BuyerPlace => "Consignor From Place"
      case BuyerGstin => "Consignor From GSTIN")
    case Logistics(f) => (match f
      case LrNo => "LR No"
      case DespatchThrough => "Despatch Through"
      case Destination => "Destination"
      case TransportMode => "Transport Mode"
      case Distance => "Distance"
      case TransporterName => "Transporter Name"
      case VehicleNumber => "Vehical Number"
      case VehicleType => "Vehical Type"
      case DocAirWayBillNo => "Doc/AirWay Bill No"
      case DocDate => "Doc Date"
      case TransporterId => "Transporter ID")
    case EWayBill(f) => (match f
      case EWayBillNo => "e-Way Bill No"
      case EWayBillDate => "e-Way Bill Date"
      case ConsolidatedEWayBillNo => "Consolidated e-Way Bill No"
      case ConsolidatedEWayDate => "Consolidated e-Way Date"
      case StatusOfEWayBill => "Status of e-Way Bill")
    case Summary(f) => (match f
      case CgstLedger => "CGST Ledger"
      case CgstAmount => "CGST Amount"
      case SgstLedger => "SGST Ledger"
      case SgstAmount => "SGST Amount"
      case IgstLedger => "IGST Ledger"
      case IgstAmount => "IGST Amount"
      case CessLedger => "Cess Ledger"
      case CessAmount => "Cess Amount"
      case RoundOffLedger => "Round off Ledger"
      case RoundOffAmount => "Round off Amount"
      case Narration => "Narration"
      case TermsOfPayment => "Term of Payment"
      case OtherReference => "Other Reference"
      case TermsOfDelivery => "Terms of Delivery"
      case PurchaseLedger => "Purchase Ledger"
      case CostCenterGodown => "Cost Center Godown")
  }

  /** The key a line-item column reads inside an item. */
  function ItemKey(f: ItemField): string {
    match f
    case ItemName => "itemName"
    case HsnCode => "hsnCode"
    case ItemDescription => "itemDescription"
    case TaxRate => "taxRate"
    case BatchNo => "batchNo"
    case MfgDate => "mfgDate"
    case ExpDate => "expDate"
    case Qty => "qty"
    case Uom => "uom"
    case Rate => "rate"
    case Discount => "discount"
    case Amount => "amount"
  }

  /** The column header of a line-item column. */
  function ItemColumnName(f: ItemField): string {
    match f
    case ItemName => "Item Name"
    case HsnCode => "HSN Code"
    case ItemDescription => "Item Description"
    case TaxRate => "Tax Rate"
    case BatchNo => "Batch No"
    case MfgDate => "Mfg Date"
    case ExpDate => "Exp Date"
    case Qty => "QTY"
    case Uom => "UOM"
    case Rate => "Rate"
    case Discount => "Discount"
    case Amount => "Amount"
  }

  function ColumnName(c: Column): string {
    match c
    case BaseCol(b) => BaseColumnName(b)
    case ItemCol(f) => ItemColumnName(f)
  }

  const HeaderFields: set<HeaderField> :=
    {
      InvoiceDate, InvoiceNo, SupplierInvoiceNo, SupplierInvoiceDate, VoucherType, OrderNo,
      OrderDate, OrderDueDate, DocumentType, SubType, ReceiptNoteNo, ReceiptNoteDate
    }

  const SupplierFields: set<SupplierField> :=
    {
      SupplierName, SupplierAddress1, SupplierAddress2, SupplierAddress3, SupplierPincode,
      SupplierState, PlaceOfSupply, Country, SupplierGstin, GstRegistrationType
    }

  const BuyerFields: set<BuyerField> :=
    {
      BuyerName, BuyerAddress1, BuyerAddress2, BuyerAddress3, BuyerPincode, BuyerState,
      BuyerPlace, BuyerGstin
    }

  const LogisticsFields: set<LogisticsField> :=
    {
      LrNo, DespatchThrough, Destination, TransportMode, Distance, TransporterName,
      VehicleNumber, VehicleType, DocAirWayBillNo, DocDate, TransporterId
    }

  const EWayBillFields: set<EWayBillField> :=
    {
      EWayBillNo, EWayBillDate, ConsolidatedEWayBillNo, ConsolidatedEWayDate, StatusOfEWayBill
    }

  const SummaryFields: set<SummaryField> :=
    {
      CgstLedger, CgstAmount, SgstLedger, SgstAmount, IgstLedger, IgstAmount, CessLedger,
      CessAmount, RoundOffLedger, RoundOffAmount, Narration, TermsOfPayment, OtherReference,
      TermsOfDelivery, PurchaseLedger, CostCenterGodown
    }

  const ItemFields: set<ItemField> :=
    {
      ItemName, HsnCode, ItemDescription, TaxRate, BatchNo, MfgDate, ExpDate, Qty, Uom, Rate,
      Discount, Amount
    }

  /** All 62 invoice-level columns. */
  const BaseColumns: set<BaseColumn> :=
    (set f | f in HeaderFields :: Header(f)) + (set f | f in SupplierFields :: Supplier(f))
    + (set f | f in BuyerFields :: Buyer(f)) + (set f | f in LogisticsFields :: Logistics(f))
    + (set f | f in EWayBillFields :: EWayBill(f)) + (set f | f in SummaryFields :: Summary(f))

  /** The sets above list every value of their types. */
  lemma {:induction false} BaseColumnListed(c: BaseColumn)
    ensures c in BaseColumns
  {
    match c
    case Header(f) =>
      assert f in HeaderFields by { match f { case InvoiceDate => case InvoiceNo => case SupplierInvoiceNo => case SupplierInvoiceDate => case VoucherType => case OrderNo => case OrderDate => case OrderDueDate => case DocumentType => case SubType => case ReceiptNoteNo => case ReceiptNoteDate => } }
    case Supplier(f) =>
      assert f in SupplierFields by { match f { case SupplierName => case SupplierAddress1 => case SupplierAddress2 => case SupplierAddress3 => case SupplierPincode => case SupplierState => case PlaceOfSupply => case Country => case SupplierGstin => case GstRegistrationType => } }
    case Buyer(f) =>
      assert f in BuyerFields by { match f { case BuyerName => case BuyerAddress1 => case BuyerAddress2 => case BuyerAddress3 => case BuyerPincode => case BuyerState => case BuyerPlace => case BuyerGstin => } }
    case Logistics(f) =>
      assert f in LogisticsFields by { match f { case LrNo => case DespatchThrough => case Destination => case TransportMode => case Distance => case TransporterName => case VehicleNumber => case VehicleType => case DocAirWayBillNo => case DocDate => case TransporterId => } }
    case EWayBill(f) =>
      assert f in EWayBillFields by { match f { case EWayBillNo => case EWayBillDate => case ConsolidatedEWayBillNo => case ConsolidatedEWayDate => case StatusOfEWayBill => } }
    case Summary(f) =>
      assert f in SummaryFields by { match f { case CgstLedger => case CgstAmount => case SgstLedger => case SgstAmount => case IgstLedger => case IgstAmount => case CessLedger => case CessAmount => case RoundOffLedger => case RoundOffAmount => case Narration => case TermsOfPayment => case OtherReference => case TermsOfDelivery => case PurchaseLedger => case CostCenterGodown => } }
  }

  lemma {:induction false} ItemFieldListed(f: ItemField)
    ensures f in ItemFields
  {
    match f { case ItemName => case HsnCode => case ItemDescription => case TaxRate => case BatchNo => case MfgDate => case ExpDate => case Qty => case Uom => case Rate => case Discount => case Amount => }
  }

  /**
   * The column a header denotes, if any (the inverse of ColumnName). The source has no such
   * function: it exists only to prove the header names distinct (ColumnNameInjective). Headers
   * are told apart by length, then by single characters, before being compared whole; that
   * dispatch is proof tuning only, and so are the ...NamesDecode1, 2, 3 and 4 splits below,
   * which keep each proof obligation small.
   */
  function ColumnNamed(name: string): Option<Column> {
    match |name|
    case 3 =>
      if name == "QTY" then Some(ItemCol(Qty))
      else if name == "UOM" then Some(ItemCol(Uom))
      else None
    case 4 =>
      if name == "Rate" then Some(ItemCol(Rate))
      else None
    case 5 =>
      if name == "State" then Some(BaseCol(Supplier(SupplierState)))
      else if name == "LR No" then Some(BaseCol(Logistics(LrNo)))
      else None
    case 6 =>
      if name == "Amount" then Some(ItemCol(Amount))
      else None
    case 7 =>
      if name == "Country" then Some(BaseCol(Supplier(Country)))
      else None
    case 8 =>
      (match name[0]
      case 'B' =>
        if name == "Batch No" then Some(ItemCol(BatchNo))
        else None
      case 'D' =>
        (match name[7]
        case 'e' =>
          if name == "Distance" then Some(BaseCol(Logistics(Distance)))
          else if name == "Doc Date" then Some(BaseCol(Logistics(DocDate)))
          else None
        case 't' =>
          if name == "Discount" then Some(ItemCol(Discount))
          else None
        case _ => None)
      case 'E' =>
        if name == "Exp Date" then Some(ItemCol(ExpDate))
        else None
      case 'H' =>
        if name == "HSN Code" then Some(ItemCol(HsnCode))
        else None
      case 'M' =>
        if name == "Mfg Date" then Some(ItemCol(MfgDate))
        else None
      case 'O' =>
        if name == "Order No" then Some(BaseCol(Header(OrderNo)))
        else None
      case 'S' =>
        if name == "Sub Type" then Some(BaseCol(Header(SubType)))
        else None
      case 'T' =>
        if name == "Tax Rate" then Some(ItemCol(TaxRate))
        else None
      case _ => None)
    case 9 =>
      (match name[0]
      case 'A' =>
        (match name[8]
        case '1' =>
          if name == "Address 1" then Some(BaseCol(Supplier(SupplierAddress1)))
          else None
        case '2' =>
          if name == "Address 2" then Some(BaseCol(Supplier(SupplierAddress2)))
          else None
        case '3' =>
          if name == "Address 3" then Some(BaseCol(Supplier(SupplierAddress3)))
          else None
        case _ => None)
      case 'G' =>
        if name == "GSTIN/UIN" then Some(BaseCol(Supplier(SupplierGstin)))
        else None
      case 'I' =>
        if name == "Item Name" then Some(ItemCol(ItemName))
        else None
      case 'N' =>
        if name == "Narration" then Some(BaseCol(Summary(Narration)))
        else None
      case _ => None)
    case 10 =>
      if name == "Invoice No" then Some(BaseCol(Header(InvoiceNo)))
      else if name == "Order Date" then Some(BaseCol(Header(OrderDate)))
      else None
    case 11 =>
      (match name[0]
      case 'C' =>
        (match name[10]
        case 'r' =>
          if name == "CGST Ledger" then Some(BaseCol(Summary(CgstLedger)))
          else if name == "Cess Ledger" then Some(BaseCol(Summary(CessLedger)))
          else None
        case 't' =>
          if name == "CGST Amount" then Some(BaseCol(Summary(CgstAmount)))
          else if name == "Cess Amount" then Some(BaseCol(Summary(CessAmount)))
          else None
        case _ => None)
      case 'D' =>
        if name == "Destination" then Some(BaseCol(Logistics(Destination)))
        else None
      case 'I' =>
        if name == "IGST Ledger" then Some(BaseCol(Summary(IgstLedger)))
        else if name == "IGST Amount" then Some(BaseCol(Summary(IgstAmount)))
        else None
      case 'S' =>
        if name == "SGST Ledger" then Some(BaseCol(Summary(SgstLedger)))
        else if name == "SGST Amount" then Some(BaseCol(Summary(SgstAmount)))
        else None
      case _ => None)
    case 12 =>
      (match name[0]
      case 'I' =>
        if name == "Invoice Date" then Some(BaseCol(Header(InvoiceDate)))
        else None
      case 'V' =>
        if name == "Voucher Type" then Some(BaseCol(Header(VoucherType)))
        else if name == "Vehical Type" then Some(BaseCol(Logistics(VehicleType)))
        else None
      case _ => None)
    case 13 =>
      (match name[0]
      case 'D' =>
        if name == "Document Type" then Some(BaseCol(Header(DocumentType)))
        else None
      case 'S' =>
        if name == "Supplier Name" then Some(BaseCol(Supplier(SupplierName)))
        else None
      case 'e' =>
        if name == "e-Way Bill No" then Some(BaseCol(EWayBill(EWayBillNo)))
        else None
      case _ => None)
    case 14 =>
      (match name[0]
      case 'O' =>
        if name == "Order Due Date" then Some(BaseCol(Header(OrderDueDate)))
        else None
      case 'T' =>
        if name == "Transport Mode" then Some(BaseCol(Logistics(TransportMode)))
        else if name == "Transporter ID" then Some(BaseCol(Logistics(TransporterId)))
        else None
      case 'V' =>
        if name == "Vehical Number" then Some(BaseCol(Logistics(VehicleNumber)))
        else None
      case _ => None)
    case 15 =>
      (match name[0]
      case 'O' =>
        if name == "Other Reference" then Some(BaseCol(Summary(OtherReference)))
        else None
      case 'P' =>
        if name == "Place of Supply" then Some(BaseCol(Supplier(PlaceOfSupply)))
        else if name == "Purchase Ledger" then Some(BaseCol(Summary(PurchaseLedger)))
        else None
      case 'R' =>
        if name == "Receipt Note No" then Some(BaseCol(Header(ReceiptNoteNo)))
        else None
      case 'T' =>
        if name == "Term of Payment" then Some(BaseCol(Summary(TermsOfPayment)))
        else None
      case 'e' =>
        if name == "e-Way Bill Date" then Some(BaseCol(EWayBill(EWayBillDate)))
        else None
      case _ => None)
    case 16 =>
      (match name[0]
      case 'D' =>
        if name == "Despatch Through" then Some(BaseCol(Logistics(DespatchThrough)))
        else None
      case 'I' =>
        if name == "Item Description" then Some(ItemCol(ItemDescription))
        else None
      case 'R' =>
        if name == "Round off Ledger" then Some(BaseCol(Summary(RoundOffLedger)))
        else if name == "Round off Amount" then Some(BaseCol(Summary(RoundOffAmount)))
        else None
      case 'S' =>
        if name == "Supplier Pincode" then Some(BaseCol(Supplier(SupplierPincode)))
        else None
      case 'T' =>
        if name == "Transporter Name" then Some(BaseCol(Logistics(TransporterName)))
        else None
      case _ => None)
    case 17 =>
      if name == "Receipt Note Date" then Some(BaseCol(Header(ReceiptNoteDate)))
      else if name == "Terms of Delivery" then Some(BaseCol(Summary(TermsOfDelivery)))
      else None
    case 18 =>
      if name == "Doc/AirWay Bill No" then Some(BaseCol(Logistics(DocAirWayBillNo)))
      else if name == "Cost Center Godown" then Some(BaseCol(Summary(CostCenterGodown)))
      else None
    case 19 =>
      if name == "Supplier Invoice No" then Some(BaseCol(Header(SupplierInvoiceNo)))
      else if name == "Consignor From Name" then Some(BaseCol(Buyer(BuyerName)))
      else None
    case 20 =>
      (match name[0]
      case 'C' =>
        (match name[19]
        case '1' =>
          if name == "Consignor From Add 1" then Some(BaseCol(Buyer(BuyerAddress1)))
          else None
        case '2' =>
          if name == "Consignor From Add 2" then Some(BaseCol(Buyer(BuyerAddress2)))
          else None
        case '3' =>
          if name == "Consignor From Add 3" then Some(BaseCol(Buyer(BuyerAddress3)))
          else None
        case 'N' =>
          if name == "Consignor From GSTIN" then Some(BaseCol(Buyer(BuyerGstin)))
          else None
        case 'e' =>
          if name == "Consignor From State" then Some(BaseCol(Buyer(BuyerState)))
          else if name == "Consignor From Place" then Some(BaseCol(Buyer(BuyerPlace)))
          else None
        case _ => None)
      case 'S' =>
        if name == "Status of e-Way Bill" then Some(BaseCol(EWayBill(StatusOfEWayBill)))
        else None
      case _ => None)
    case 21 =>
      if name == "Supplier Invoice Date" then Some(BaseCol(Header(SupplierInvoiceDate)))
      else if name == "GST Registration Type" then Some(BaseCol(Supplier(GstRegistrationType)))
      else None
    case 22 =>
      if name == "Consignor From Pincode" then Some(BaseCol(Buyer(BuyerPincode)))
      else None
    case 23 =>
      if name == "Consolidated e-Way Date" then Some(BaseCol(EWayBill(ConsolidatedEWayDate)))
      else None
    case 26 =>
      if name == "Consolidated e-Way Bill No" then Some(BaseCol(EWayBill(ConsolidatedEWayBillNo)))
      else None
    case _ => None
  }

  lemma HeaderNamesDecode1(f: HeaderField)
    requires f == InvoiceDate || f == InvoiceNo || f == SupplierInvoiceNo || f == SupplierInvoiceDate
    ensures ColumnNamed(BaseColumnName(Header(f))) == Some(BaseCol(Header(f)))
  {
  }

  lemma HeaderNamesDecode2(f: HeaderField)
    requires f == VoucherType || f == OrderNo || f == OrderDate || f == OrderDueDate
    ensures ColumnNamed(BaseColumnName(Header(f))) == Some(BaseCol(Header(f)))
  {
  }

  lemma HeaderNamesDecode3(f: HeaderField)
    requires f == DocumentType || f == SubType || f == ReceiptNoteNo || f == ReceiptNoteDate
    ensures ColumnNamed(BaseColumnName(Header(f))) == Some(BaseCol(Header(f)))
  {
  }

  lemma {:induction false} HeaderNamesDecode(f: HeaderField)
    ensures ColumnNamed(BaseColumnName(Header(f))) == Some(BaseCol(Header(f)))
  {
    if f == InvoiceDate || f == InvoiceNo || f == SupplierInvoiceNo || f == SupplierInvoiceDate {
      HeaderNamesDecode1(f);
    } else if f == VoucherType || f == OrderNo || f == OrderDate || f == OrderDueDate {
      HeaderNamesDecode2(f);
    } else {
      HeaderNamesDecode3(f);
    }
  }

  lemma SupplierNamesDecode1(f: SupplierField)
    requires f == SupplierName || f == SupplierAddress1 || f == SupplierAddress2 || f == SupplierAddress3
    ensures ColumnNamed(BaseColumnName(Supplier(f))) == Some(BaseCol(Supplier(f)))
  {
  }

  lemma SupplierNamesDecode2(f: SupplierField)
    requires f == SupplierPincode || f == SupplierState || f == PlaceOfSupply || f == Country
    ensures ColumnNamed(BaseColumnName(Supplier(f))) == Some(BaseCol(Supplier(f)))
  {
  }

  lemma SupplierNamesDecode3(f: SupplierField)
    requires f == SupplierGstin || f == GstRegistrationType
    ensures ColumnNamed(BaseColumnName(Supplier(f))) == Some(BaseCol(Supplier(f)))
  {
  }

  lemma {:induction false} SupplierNamesDecode(f: SupplierField)
    ensures ColumnNamed(BaseColumnName(Supplier(f))) == Some(BaseCol(Supplier(f)))
  {
    if f == SupplierName || f == SupplierAddress1 || f == SupplierAddress2 || f == SupplierAddress3 {
      SupplierNamesDecode1(f);
    } else if f == SupplierPincode || f == SupplierState || f == PlaceOfSupply || f == Country {
      SupplierNamesDecode2(f);
    } else {
      SupplierNamesDecode3(f);
    }
  }

  lemma BuyerNamesDecode1(f: BuyerField)
    requires f == BuyerName || f == BuyerAddress1 || f == BuyerAddress2 || f == BuyerAddress3
    ensures ColumnNamed(BaseColumnName(Buyer(f))) == Some(BaseCol(Buyer(f)))
  {
  }

  lemma BuyerNamesDecode2(f: BuyerField)
    requires f == BuyerPincode || f == BuyerState || f == BuyerPlace || f == BuyerGstin
    ensures ColumnNamed(BaseColumnName(Buyer(f))) == Some(BaseCol(Buyer(f)))
  {
  }

  lemma {:induction false} BuyerNamesDecode(f: BuyerField)
    ensures ColumnNamed(BaseColumnName(Buyer(f))) == Some(BaseCol(Buyer(f)))
  {
    if f == BuyerName || f == BuyerAddress1 || f == BuyerAddress2 || f == BuyerAddress3 {
      BuyerNamesDecode1(f);
    } else {
      BuyerNamesDecode2(f);
    }
  }

  lemma LogisticsNamesDecode1(f: LogisticsField)
    requires f == LrNo || f == DespatchThrough || f == Destination || f == TransportMode
    ensures ColumnNamed(BaseColumnName(Logistics(f))) == Some(BaseCol(Logistics(f)))
  {
  }

  lemma LogisticsNamesDecode2(f: LogisticsField)
    requires f == Distance || f == TransporterName || f == VehicleNumber || f == VehicleType
    ensures ColumnNamed(BaseColumnName(Logistics(f))) == Some(BaseCol(Logistics(f)))
  {
  }

  lemma LogisticsNamesDecode3(f: LogisticsField)
    requires f == DocAirWayBillNo || f == DocDate || f == TransporterId
    ensures ColumnNamed(BaseColumnName(Logistics(f))) == Some(BaseCol(Logistics(f)))
  {
  }

  lemma {:induction false} LogisticsNamesDecode(f: LogisticsField)
    ensures ColumnNamed(BaseColumnName(Logistics(f))) == Some(BaseCol(Logistics(f)))
  {
    if f == LrNo || f == DespatchThrough || f == Destination || f == TransportMode {
      LogisticsNamesDecode1(f);
    } else if f == Distance || f == TransporterName || f == VehicleNumber || f == VehicleType {
      LogisticsNamesDecode2(f);
    } else {
      LogisticsNamesDecode3(f);
    }
  }

  lemma EWayBillNamesDecode1(f: EWayBillField)
    requires f == EWayBillNo || f == EWayBillDate || f == ConsolidatedEWayBillNo || f == ConsolidatedEWayDate
    ensures ColumnNamed(BaseColumnName(EWayBill(f))) == Some(BaseCol(EWayBill(f)))
  {
  }

  lemma EWayBillNamesDecode2(f: EWayBillField)
    requires f == StatusOfEWayBill
    ensures ColumnNamed(BaseColumnName(EWayBill(f))) == Some(BaseCol(EWayBill(f)))
  {
  }

  lemma {:induction false} EWayBillNamesDecode(f: EWayBillField)
    ensures ColumnNamed(BaseColumnName(EWayBill(f))) == Some(BaseCol(EWayBill(f)))
  {
    if f == EWayBillNo || f == EWayBillDate || f == ConsolidatedEWayBillNo || f == ConsolidatedEWayDate {
      EWayBillNamesDecode1(f);
    } else {
      EWayBillNamesDecode2(f);
    }
  }

  lemma SummaryNamesDecode1(f: SummaryField)
    requires f == CgstLedger || f == CgstAmount || f == SgstLedger || f == SgstAmount
    ensures ColumnNamed(BaseColumnName(Summary(f))) == Some(BaseCol(Summary(f)))
  {
  }

  lemma SummaryNamesDecode2(f: SummaryField)
    requires f == IgstLedger || f == IgstAmount || f == CessLedger || f == CessAmount
    ensures ColumnNamed(BaseColumnName(Summary(f))) == Some(BaseCol(Summary(f)))
  {
  }

  lemma SummaryNamesDecode3(f: SummaryField)
    requires f == RoundOffLedger || f == RoundOffAmount || f == Narration || f == TermsOfPayment
    ensures ColumnNamed(BaseColumnName(Summary(f))) == Some(BaseCol(Summary(f)))
  {
  }

  lemma SummaryNamesDecode4(f: SummaryField)
    requires f == OtherReference || f == TermsOfDelivery || f == PurchaseLedger || f == CostCenterGodown
    ensures ColumnNamed(BaseColumnName(Summary(f))) == Some(BaseCol(Summary(f)))
  {
  }

  lemma {:induction false} SummaryNamesDecode(f: SummaryField)
    ensures ColumnNamed(BaseColumnName(Summary(f))) == Some(BaseCol(Summary(f)))
  {
    if f == CgstLedger || f == CgstAmount || f == SgstLedger || f == SgstAmount {
      SummaryNamesDecode1(f);
    } else if f == IgstLedger || f == IgstAmount || f == CessLedger || f == CessAmount {
      SummaryNamesDecode2(f);
    } else if f == RoundOffLedger || f == RoundOffAmount || f == Narration || f == TermsOfPayment {
      SummaryNamesDecode3(f);
    } else {
      SummaryNamesDecode4(f);
    }
  }

  lemma ItemNamesDecode1(f: ItemField)
    requires f == ItemName || f == HsnCode || f == ItemDescription || f == TaxRate
    ensures ColumnNamed(ItemColumnName(f)) == Some(ItemCol(f))
  {
  }

  lemma ItemNamesDecode2(f: ItemField)
    requires f == BatchNo || f == MfgDate || f == ExpDate || f == Qty
    ensures ColumnNamed(ItemColumnName(f)) == Some(ItemCol(f))
  {
  }

  lemma ItemNamesDecode3(f: ItemField)
    requires f == Uom || f == Rate || f == Discount || f == Amount
    ensures ColumnNamed(ItemColumnName(f)) == Some(ItemCol(f))
  {
  }

  lemma {:induction false} ItemNamesDecode(f: ItemField)
    ensures ColumnNamed(ItemColumnName(f)) == Some(ItemCol(f))
  {
    if f == ItemName || f == HsnCode || f == ItemDescription || f == TaxRate {
      ItemNamesDecode1(f);
    } else if f == BatchNo || f == MfgDate || f == ExpDate || f == Qty {
      ItemNamesDecode2(f);
    } else {
      ItemNamesDecode3(f);
    }
  }

  /** Looking a column up by its own header gives that column back. */
  lemma {:induction false} ColumnNameRoundTrip(c: Column)
    ensures ColumnNamed(ColumnName(c)) == Some(c)
  {
    match c
    case ItemCol(f) => ItemNamesDecode(f);
    case BaseCol(b) =>
      match b
      case Header(f) => HeaderNamesDecode(f);
      case Supplier(f) => SupplierNamesDecode(f);
      case Buyer(f) => BuyerNamesDecode(f);
      case Logistics(f) => LogisticsNamesDecode(f);
      case EWayBill(f) => EWayBillNamesDecode(f);
      case Summary(f) => SummaryNamesDecode(f);
  }

  /** No two columns share a header. */
  lemma ColumnNameInjective(c1: Column, c2: Column)
    requires ColumnName(c1) == ColumnName(c2)
    ensures c1 == c2
  {
    ColumnNameRoundTrip(c1);
    ColumnNameRoundTrip(c2);
  }

  /** The headers of the invoice-level and of the line-item columns. */
  const BaseColumnNames: set<string> := set c | c in BaseColumns :: BaseColumnName(c)
  const ItemColumnNames: set<string> := set f | f in ItemFields :: ItemColumnName(f)

  /** An item column never shares its header with an invoice-level column. */
  lemma ColumnNamesDisjoint()
    ensures BaseColumnNames !! ItemColumnNames
  {
    forall c, f | c in BaseColumns && f in ItemFields
      ensures BaseColumnName(c) != ItemColumnName(f)
    {
      ColumnNameRoundTrip(BaseCol(c));
      ColumnNameRoundTrip(ItemCol(f));
    }
  }

  /** Reading one base column: summary.totalAmount is read by none of them. */
  lemma TotalAmountUnread(c: BaseColumn)
    ensures !(GroupOf(c) == SummaryGroup && Key(c) == "totalAmount")
  {
    match c
    case Summary(f) =>
      match f { case CgstLedger => case CgstAmount => case SgstLedger => case SgstAmount => case IgstLedger => case IgstAmount => case CessLedger => case CessAmount => case RoundOffLedger => case RoundOffAmount => case Narration => case TermsOfPayment => case OtherReference => case TermsOfDelivery => case PurchaseLedger => case CostCenterGodown => }
    case _ =>
  }
}

